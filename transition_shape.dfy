/**
 * TransitionShape (react-three-fiber): a box that blends from its current
 * texture to the next one. A new URL becomes the next texture and starts a
 * transition tween; when the tween completes the URL becomes the current
 * texture, the blend uniform goes back to 0 and onLoadComplete is called.
 */
module TransitionShape {

  class Shape {
    var currentTexture: string
    var nextTexture: string
    var isTransitioning: bool
    /** The `transition` shader uniform, 0 at rest. */
    var transition: real
    /** Whether materialRef.current is set when the effects run. */
    const hasMaterial: bool
    /** Whether an onLoadComplete prop was given. */
    const hasCallback: bool
    /** The URLs of the transition tweens started and not yet completed, oldest first. */
    var pending: seq<string>
    var loadCompleteCalls: nat

    /**
     * The latest started tween heads for the next texture; without a
     * material none is started; with one, a shape with no tween running
     * is at rest on a single texture.
     */
    ghost predicate Valid()
      reads this
    {
      && (!hasMaterial ==> pending == [])
      && (pending != [] ==> pending[|pending| - 1] == nextTexture)
      && (hasMaterial && pending == [] ==> !isTransitioning && currentTexture == nextTexture)
    }

    /** Mounting with a URL: both textures are that URL and no transition runs. */
    constructor (textureURL: string, hasMaterial: bool, hasCallback: bool)
      ensures Valid()
      ensures currentTexture == nextTexture == textureURL && !isTransitioning
      ensures transition == 0.0 && pending == [] && loadCompleteCalls == 0
      ensures this.hasMaterial == hasMaterial && this.hasCallback == hasCallback
    {
      currentTexture, nextTexture, isTransitioning := textureURL, textureURL, false;
      transition, pending, loadCompleteCalls := 0.0, [], 0;
      this.hasMaterial, this.hasCallback := hasMaterial, hasCallback;
    }

    /**
     * The texture-change effect. A URL equal to the current or the next
     * texture is ignored; any other becomes the next texture and the shape is
     * transitioning; a tween toward it starts only when the material exists.
     */
    method OnTextureURL(textureURL: string)
      requires Valid()
      modifies this
      ensures Valid()
      ensures textureURL == old(currentTexture) || textureURL == old(nextTexture) ==>
                && nextTexture == old(nextTexture) && isTransitioning == old(isTransitioning)
                && pending == old(pending)
      ensures textureURL != old(currentTexture) && textureURL != old(nextTexture) ==>
                && nextTexture == textureURL && isTransitioning
                && pending == old(pending) + (if hasMaterial then [textureURL] else [])
      ensures currentTexture == old(currentTexture) && transition == old(transition)
      ensures loadCompleteCalls == old(loadCompleteCalls)
    {
      if textureURL != currentTexture && textureURL != nextTexture {
        nextTexture := textureURL;
        isTransitioning := true;
        if hasMaterial {
          pending := pending + [textureURL];
        }
      }
    }

    /**
     * The oldest transition tween completes: its URL becomes the current
     * texture, the uniform resets to 0, the shape stops transitioning and
     * onLoadComplete, if given, is called.
     */
    method CompleteTransition()
      requires Valid() && pending != []
      modifies this
      ensures Valid()
      ensures currentTexture == old(pending)[0] && pending == old(pending)[1..]
      ensures transition == 0.0 && !isTransitioning
      ensures nextTexture == old(nextTexture)
      ensures loadCompleteCalls == old(loadCompleteCalls) + (if hasCallback then 1 else 0)
    {
      var textureURL := pending[0];
      pending := pending[1..];
      currentTexture := textureURL;
      transition := 0.0;
      isTransitioning := false;
      if hasCallback {
        loadCompleteCalls := loadCompleteCalls + 1;
      }
    }

    /** The current texture finishes loading: onLoadComplete fires only when no transition is running. */
    method OnCurrentTextureLoaded()
      modifies this
      ensures loadCompleteCalls == old(loadCompleteCalls) + (if hasCallback && !isTransitioning then 1 else 0)
      ensures currentTexture == old(currentTexture) && nextTexture == old(nextTexture)
      ensures isTransitioning == old(isTransitioning) && pending == old(pending) && transition == old(transition)
    {
      if hasCallback && !isTransitioning {
        loadCompleteCalls := loadCompleteCalls + 1;
      }
    }
  }

  /**
   * With a material, one new URL followed by the completion of its tween
   * leaves the shape at rest on that URL, with onLoadComplete called once
   * if given.
   */
  method ChangeAndComplete(s: Shape, url: string)
    requires s.Valid() && s.hasMaterial && s.pending == []
    requires url != s.currentTexture
    modifies s
    ensures s.Valid() && s.pending == []
    ensures s.currentTexture == s.nextTexture == url && !s.isTransitioning && s.transition == 0.0
    ensures s.loadCompleteCalls == old(s.loadCompleteCalls) + (if s.hasCallback then 1 else 0)
  {
    s.OnTextureURL(url);
    s.CompleteTransition();
  }

  /** Without a material, a new URL leaves the shape transitioning for good: nothing can complete. */
  method NoMaterialStaysTransitioning(s: Shape, url: string)
    requires s.Valid() && !s.hasMaterial
    requires url != s.currentTexture && url != s.nextTexture
    modifies s
    ensures s.Valid() && s.isTransitioning && s.pending == []
    ensures s.nextTexture == url && s.currentTexture == old(s.currentTexture)
  {
    s.OnTextureURL(url);
  }
}
