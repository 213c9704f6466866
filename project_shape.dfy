/**
 * ProjectShape (react-three-fiber): the textured box of an open project.
 * Its texture is looked up among the preloaded ones by the URL's position
 * in the list of all image URLs. When the URL changes, the shape plays the
 * intro animation if no instance has ever played it in this page load
 * (a module-level flag); otherwise it crossfades, but only from a URL it
 * recorded itself.
 */
module ProjectShape {
  import opened Wrappers
  import opened Seqs

  /** The preloadedTextures prop: an array of textures, or one texture used for every URL. */
  datatype Preloaded<T> = Many(textures: seq<T>) | Single(texture: T)

  /** A string prop is truthy: present and not empty. */
  predicate Truthy(url: Option<string>) {
    url.Some? && url.value != ""
  }

  /**
   * The texture useMemo: nothing when a prop is missing or the URL is not
   * listed; otherwise the array element at the URL's first position (nothing
   * when the array is shorter), or the single texture.
   */
  function TextureLookup<T>(preloaded: Option<Preloaded<T>>, allImageURLs: Option<seq<string>>, textureURL: Option<string>)
    : (texture: Option<T>)
    ensures preloaded.None? || allImageURLs.None? || !Truthy(textureURL) ==> texture.None?
    ensures texture.Some? ==> textureURL.value in allImageURLs.value
    ensures preloaded.Some? && preloaded.value.Single? && allImageURLs.Some? && Truthy(textureURL)
            && textureURL.value in allImageURLs.value
            ==> texture == Some(preloaded.value.texture)
  {
    if preloaded.None? || allImageURLs.None? || !Truthy(textureURL) then None
    else
      var textureIndex := IndexOf(allImageURLs.value, textureURL.value);
      if textureIndex == -1 then None
      else match preloaded.value
        case Many(textures) => if textureIndex < |textures| then Some(textures[textureIndex]) else None
        case Single(texture) => Some(texture)
  }

  /** With an array of textures, the texture is the one at the first position where the URL is listed. */
  lemma LookupFirstOccurrence<T>(textures: seq<T>, urls: seq<string>, url: string, i: nat)
    requires url != "" && i < |urls| && i < |textures|
    requires urls[i] == url && url !in urls[..i]
    ensures TextureLookup(Some(Many(textures)), Some(urls), Some(url)) == Some(textures[i])
  {
  }

  /** What the effect starts on a URL change. */
  datatype Animation = NoAnimation | Intro | Crossfade

  /** The module-level state shared by every instance in one page load. */
  class ModuleState {
    var hasEverAnimated: bool
    /** How many intro animations have been started. */
    var introsPlayed: nat

    ghost predicate Valid()
      reads this
    {
      introsPlayed == (if hasEverAnimated then 1 else 0)
    }

    /** Module evaluation: `let hasEverAnimated = false`. */
    constructor ()
      ensures Valid() && !hasEverAnimated && introsPlayed == 0
    {
      hasEverAnimated, introsPlayed := false, 0;
    }
  }

  /** One mounted ProjectShape with its previousTextureURL ref. */
  class Instance {
    const shared: ModuleState
    var previousTextureURL: Option<string>

    /** Mounting: the ref starts at null. */
    constructor (shared: ModuleState)
      ensures this.shared == shared && previousTextureURL == None
    {
      this.shared := shared;
      previousTextureURL := None;
    }

    /**
     * The effect, run on mount and whenever textureURL changes. Without both
     * refs nothing happens. The first effect of the page load plays the intro
     * and records the URL; later ones crossfade only when a URL was recorded
     * and differs, and record the new one.
     */
    method Effect(textureURL: string, refsReady: bool) returns (animation: Animation)
      requires shared.Valid()
      modifies this, shared
      ensures shared.Valid()
      ensures animation == Intro <==> refsReady && !old(shared.hasEverAnimated)
      ensures animation == Crossfade <==>
                refsReady && old(shared.hasEverAnimated)
                && old(previousTextureURL).Some? && old(previousTextureURL).value != textureURL
      ensures animation == NoAnimation ==> previousTextureURL == old(previousTextureURL)
      ensures animation != NoAnimation ==> previousTextureURL == Some(textureURL)
      ensures shared.introsPlayed == old(shared.introsPlayed) + (if animation == Intro then 1 else 0)
      ensures refsReady ==> shared.hasEverAnimated
      ensures !refsReady ==> shared.hasEverAnimated == old(shared.hasEverAnimated)
    {
      animation := NoAnimation;
      if !refsReady {
        return;
      }
      var textureChanged := previousTextureURL.Some? && previousTextureURL.value != textureURL;
      if !shared.hasEverAnimated {
        animation := Intro;
        shared.hasEverAnimated := true;
        shared.introsPlayed := shared.introsPlayed + 1;
        previousTextureURL := Some(textureURL);
      } else if textureChanged {
        animation := Crossfade;
        previousTextureURL := Some(textureURL);
      }
    }
  }

  /**
   * Any sequence of effects on any instances plays the intro at most once:
   * the flag is shared, and each effect keeps the count in step with it.
   */
  method RunEffects(shared: ModuleState, instances: seq<Instance>, urls: seq<string>, ready: seq<bool>)
    requires shared.Valid() && |urls| == |instances| == |ready|
    requires forall i :: 0 <= i < |instances| ==> instances[i].shared == shared
    modifies shared, set i | 0 <= i < |instances| :: instances[i]
    ensures shared.Valid() && shared.introsPlayed <= 1
  {
    var k := 0;
    while k < |instances|
      invariant 0 <= k <= |instances| && shared.Valid()
    {
      var animation := instances[k].Effect(urls[k], ready[k]);
      k := k + 1;
    }
  }

  /**
   * An instance mounted after the intro has played never records a URL, so
   * none of its later URL changes crossfades.
   */
  method LateInstanceNeverCrossfades(shared: ModuleState, urls: seq<string>, ready: seq<bool>)
    returns (animations: seq<Animation>)
    requires shared.Valid() && shared.hasEverAnimated && |urls| == |ready|
    modifies shared
    ensures |animations| == |urls|
    ensures forall i :: 0 <= i < |animations| ==> animations[i] == NoAnimation
  {
    var instance := new Instance(shared);
    animations := [];
    var k := 0;
    while k < |urls|
      invariant 0 <= k <= |urls| && |animations| == k
      invariant shared.Valid() && shared.hasEverAnimated && instance.shared == shared
      invariant instance.previousTextureURL == None
      invariant forall i :: 0 <= i < k ==> animations[i] == NoAnimation
    {
      var animation := instance.Effect(urls[k], ready[k]);
      animations := animations + [animation];
      k := k + 1;
    }
  }
}
