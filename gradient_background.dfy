/**
 * GradientBackground: a stack of full-size gradient layers. Every few
 * seconds a new palette is chosen, a new layer painted with it is put in
 * front, and every older layer fades out and is removed when its fade
 * completes.
 */
module GradientBackground {
  import opened Colors
  import opened Strings
  import opened Css
  import opened Seqs
  import JsMath
  import GG = GradientGenerator

  /** A child element of the mount: a div with a background image, told apart by its identity. */
  datatype Layer = Layer(id: nat, backgroundImage: string)

  /** chooseColors' palette size: 3, plus Math.round(Math.random() * 3) when the coin draw exceeds 0.5. */
  function ColorAmount(chance: real, extra: real): (n: int)
    requires JsMath.IsDraw(chance) && JsMath.IsDraw(extra)
    ensures 3 <= n <= 6
    ensures chance <= 0.5 ==> n == 3
  {
    if chance > 0.5 then 3 + JsMath.RandomUpTo(extra, 3) else 3
  }

  /**
   * updateColors' string builder: each hex text followed by ", ", the last
   * one by ")". An empty palette leaves the bare prefix, with no ")".
   */
  method BuildGradientString(hexes: seq<string>) returns (css: string)
    ensures hexes != [] ==> css == LinearGradient(hexes)
    ensures hexes == [] ==> css == GradientPrefix
  {
    css := GradientPrefix;
    var i := 0;
    while i < |hexes|
      invariant 0 <= i <= |hexes|
      invariant i == 0 ==> css == GradientPrefix
      invariant 0 < i < |hexes| ==> css == GradientPrefix + Join(hexes[..i], ", ") + ", "
      invariant 0 < i == |hexes| ==> css == GradientPrefix + Join(hexes, ", ") + ")"
    {
      if i > 0 {
        JoinAppend(hexes[..i], ", ", hexes[i]);
        assert hexes[..i + 1] == hexes[..i] + [hexes[i]];
      } else {
        assert hexes[..1] == [hexes[0]];
      }
      css := css + hexes[i];
      if i < |hexes| - 1 {
        css := css + ", ";
      } else {
        css := css + ")";
        assert hexes[..i + 1] == hexes;
      }
      i := i + 1;
    }
  }

  class Background {
    /** The current palette. */
    var colors: seq<Hue>
    /** The mount's children, first to last. */
    var children: seq<Layer>
    /** Layers whose fade-out is running; each completion removes the layer, in this order. */
    var fading: seq<Layer>
    /** chooseColors calls scheduled by delayedCall so far (running one is a fresh ChooseColors call). */
    var scheduledChooses: nat
    /** The identity the next created layer gets. */
    var nextId: nat

    /** Layer identities are unique among the children and were all handed out already. */
    ghost predicate Valid()
      reads this
    {
      && (forall i :: 0 <= i < |children| ==> children[i].id < nextId)
      && (forall i :: 0 <= i < |fading| ==> fading[i].id < nextId)
      && (forall i, j :: 0 <= i < j < |children| ==> children[i].id != children[j].id)
    }

    /** The mounted component, before componentDidMount: no layers, nothing scheduled. */
    constructor ()
      ensures Valid()
      ensures colors == [] && children == [] && fading == [] && scheduledChooses == 0
    {
      colors, children, fading, scheduledChooses, nextId := [], [], [], 0, 0;
    }

    /**
     * chooseColors: a new evenly stepped palette of 3 to 6 colours (the
     * random flag is false on both branches), then updateColors.
     */
    method ChooseColors(chance: real, extra: real, draws: GG.Draws, toHex: Hue -> string)
      requires Valid()
      requires JsMath.IsDraw(chance) && JsMath.IsDraw(extra)
      requires GG.ValidDraws(draws, ColorAmount(chance, extra), false)
      modifies this
      ensures Valid()
      ensures colors == GG.Palette(ColorAmount(chance, extra), false, draws)
      ensures 3 <= |colors| <= 6
      ensures |children| == |old(children)| + 1 && children[1..] == old(children)
      ensures children[0].backgroundImage == LinearGradient(HexTexts(colors, toHex))
      ensures fading == old(fading) + old(children)
      ensures scheduledChooses == old(scheduledChooses) + 1
    {
      var colorAmount := ColorAmount(chance, extra);
      var generator := new GG.Generator(colorAmount, false, draws);
      colors := generator.colors;
      UpdateColors(toHex);
    }

    /**
     * updateColors: a new layer painted with the palette goes in front;
     * every layer present before the call starts fading out (the new one is
     * not among them), and one further chooseColors is scheduled.
     */
    method UpdateColors(toHex: Hue -> string)
      requires Valid()
      modifies this
      ensures Valid()
      ensures colors == old(colors)
      ensures |children| == |old(children)| + 1 && children[1..] == old(children)
      ensures children[0].id == old(nextId) && children[0] !in old(children)
      ensures colors != [] ==> children[0].backgroundImage == LinearGradient(HexTexts(colors, toHex))
      ensures colors == [] ==> children[0].backgroundImage == GradientPrefix
      ensures fading == old(fading) + old(children) && children[0] !in fading
      ensures scheduledChooses == old(scheduledChooses) + 1
    {
      var css := BuildGradientString(HexTexts(colors, toHex));
      var gradient := Layer(nextId, css);
      nextId := nextId + 1;

      var i := 0;
      while i < |children|
        invariant 0 <= i <= |children|
        invariant children == old(children) && colors == old(colors) && nextId == old(nextId) + 1
        invariant scheduledChooses == old(scheduledChooses)
        invariant fading == old(fading) + children[..i]
      {
        fading := fading + [children[i]];
        i := i + 1;
      }
      assert children[..i] == children;

      children := [gradient] + children;
      scheduledChooses := scheduledChooses + 1;
    }

    /**
     * removeChildElement: the given layer leaves the mount and the other
     * layers stay, in order. When the layer is no longer a child the DOM
     * throws; `removed` is false and nothing changes.
     */
    method RemoveChildElement(element: Layer) returns (removed: bool)
      requires Valid()
      modifies this
      ensures Valid()
      ensures removed == (element in old(children))
      ensures removed ==> children == Remove(old(children), element)
      ensures !removed ==> children == old(children)
      ensures colors == old(colors) && fading == old(fading) && scheduledChooses == old(scheduledChooses)
      ensures nextId == old(nextId)
    {
      removed := element in children;
      if removed {
        ghost var k := IndexOf(children, element);
        children := Remove(children, element);
        assert forall i :: 0 <= i < |children| ==> children[i] == if i < k then old(children)[i] else old(children)[i + 1];
      }
    }

    /** The oldest running fade-out completes and removes its layer. */
    method CompleteFade() returns (removed: bool)
      requires Valid() && fading != []
      modifies this
      ensures Valid()
      ensures fading == old(fading)[1..]
      ensures removed == (old(fading)[0] in old(children))
      ensures removed ==> children == Remove(old(children), old(fading)[0])
      ensures !removed ==> children == old(children)
    {
      var element := fading[0];
      fading := fading[1..];
      removed := RemoveChildElement(element);
    }
  }

  /**
   * After an update, completing the fades of the layers it retired removes
   * every one of them: only the new layer is left of the children.
   */
  method UpdateThenFadeAll(b: Background, toHex: Hue -> string)
    requires b.Valid() && b.fading == []
    modifies b
    ensures b.Valid() && b.fading == []
    ensures |b.children| == 1 && b.children[0].id == old(b.nextId)
  {
    b.UpdateColors(toHex);
    ghost var front := b.children[0];
    while b.fading != []
      invariant b.Valid()
      invariant b.children == [front] + b.fading
      invariant front.id == old(b.nextId)
      decreases |b.fading|
    {
      assert b.children[1] == b.fading[0] && b.children[0].id != b.children[1].id;
      assert IndexOf(b.children, b.fading[0]) == 1;
      var removed := b.CompleteFade();
    }
  }
}
