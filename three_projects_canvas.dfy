/**
 * ThreeProjectsCanvas: the 3D stage behind an open project. A project
 * container holds the textured project shape, a video container holds at
 * most the current video; a new project grows in at once while the old one
 * grows out and is removed when that tween completes. Each ticker frame
 * draws and rotates the two containers in opposite directions, but only
 * while rendering is switched on and the canvas is on screen.
 */
module ThreeProjectsCanvas {
  import opened Wrappers
  import opened Colors
  import opened Scene
  import opened Viewport
  import JsMath

  datatype Shape =
    | ProjectShape(texture: string)
    | VideoShape(url: string, x: real, y: real)

  /** The per-frame rotation increment of the project container. */
  const RotationStep := Vec3(0.001, 0.0008, -0.0009)

  /** The children left after deleteChild: the first one goes, if there is one. */
  function WithoutFirst(children: seq<Shape>): (rest: seq<Shape>)
    ensures children == [] ==> rest == []
    ensures children != [] ==> |rest| == |children| - 1 && [children[0]] + rest == children
  {
    if children == [] then [] else children[1..]
  }

  /** A URL argument is truthy: present and not the empty string. */
  predicate Truthy(url: Option<string>) {
    url.Some? && url.value != ""
  }

  class ProjectsCanvas {
    const projectContainer: Group<Shape>
    const videoContainer: Group<Shape>
    var doRender: bool
    /** Grow-out tweens started by clearProjects whose completion has not run yet. */
    var pendingGrowOuts: nat
    /** The hue of the clear colour and the fog. */
    var tint: Hue
    var framesDrawn: nat

    ghost predicate Valid()
      reads this
    {
      projectContainer != videoContainer
    }

    constructor ()
      ensures Valid() && fresh(projectContainer) && fresh(videoContainer)
      ensures !doRender && pendingGrowOuts == 0 && framesDrawn == 0 && tint == Cyan
      ensures projectContainer.children == [] && videoContainer.children == []
      ensures projectContainer.rotation == videoContainer.rotation == Vec3(0.0, 0.0, 0.0)
    {
      projectContainer := new Group<Shape>();
      videoContainer := new Group<Shape>();
      doRender := false;
      pendingGrowOuts := 0;
      tint := Cyan;
      framesDrawn := 0;
    }

    /** deleteChild: removes the container's first child, if any; the rest stay as they were. */
    method DeleteChild(container: Group<Shape>)
      modifies container
      ensures container.children == WithoutFirst(old(container.children))
      ensures container.rotation == old(container.rotation)
    {
      if container.children != [] {
        container.children := container.children[1..];
      }
    }

    /** clearProjects: starts a grow-out tween on the first project, if there is one; nothing is removed yet. */
    method ClearProjects()
      modifies this
      ensures pendingGrowOuts == old(pendingGrowOuts) + (if projectContainer.children != [] then 1 else 0)
      ensures doRender == old(doRender) && tint == old(tint) && framesDrawn == old(framesDrawn)
    {
      if projectContainer.children != [] {
        pendingGrowOuts := pendingGrowOuts + 1;
      }
    }

    /** A grow-out tween completes: whatever project is first at this moment is removed. */
    method CompleteGrowOut()
      requires pendingGrowOuts > 0
      modifies this, projectContainer
      ensures pendingGrowOuts == old(pendingGrowOuts) - 1
      ensures projectContainer.children == WithoutFirst(old(projectContainer.children))
      ensures projectContainer.rotation == old(projectContainer.rotation)
      ensures doRender == old(doRender) && tint == old(tint) && framesDrawn == old(framesDrawn)
    {
      pendingGrowOuts := pendingGrowOuts - 1;
      DeleteChild(projectContainer);
    }

    /**
     * addProject: a new tint (#CCFF00 spun by `draw`·360), the old project
     * starts growing out, and exactly one new project shape is appended.
     */
    method AddProject(texture: string, draw: real)
      requires Valid() && JsMath.IsDraw(draw)
      modifies this, projectContainer
      ensures Valid()
      ensures tint == Spin(Lime, draw * 360.0)
      ensures projectContainer.children == old(projectContainer.children) + [ProjectShape(texture)]
      ensures pendingGrowOuts == old(pendingGrowOuts) + (if old(projectContainer.children) != [] then 1 else 0)
      ensures projectContainer.rotation == old(projectContainer.rotation)
      ensures doRender == old(doRender) && framesDrawn == old(framesDrawn)
    {
      tint := Spin(Lime, draw * 360.0);
      ClearProjects();
      projectContainer.children := projectContainer.children + [ProjectShape(texture)];
    }

    /**
     * changeVideo: the current video (if any) is removed; with a URL, one
     * video shape is appended at x = 70, y = 50.
     */
    method ChangeVideo(url: Option<string>)
      requires Valid()
      modifies videoContainer
      ensures Truthy(url) ==> videoContainer.children == WithoutFirst(old(videoContainer.children)) + [VideoShape(url.value, 70.0, 50.0)]
      ensures !Truthy(url) ==> videoContainer.children == WithoutFirst(old(videoContainer.children))
      ensures videoContainer.rotation == old(videoContainer.rotation)
    {
      DeleteChild(videoContainer);
      if Truthy(url) {
        videoContainer.children := videoContainer.children + [VideoShape(url.value, 70.0, 50.0)];
      }
    }

    /**
     * render, once per ticker frame: draws only while doRender is set and
     * the canvas is in the viewport; then the video container turns by the
     * exact opposite of the project container's step.
     */
    method Render(canvasElement: Element, window: Window) returns (drawn: bool)
      requires Valid()
      modifies this, projectContainer, videoContainer
      ensures Valid()
      ensures drawn == (old(doRender) && InViewport(canvasElement, window))
      ensures drawn ==> projectContainer.rotation == Add(old(projectContainer.rotation), RotationStep)
      ensures drawn ==> videoContainer.rotation == Add(old(videoContainer.rotation), Neg(RotationStep))
      ensures drawn ==> framesDrawn == old(framesDrawn) + 1
      ensures !drawn ==> (projectContainer.rotation == old(projectContainer.rotation)
                          && videoContainer.rotation == old(videoContainer.rotation)
                          && framesDrawn == old(framesDrawn))
      ensures projectContainer.children == old(projectContainer.children)
      ensures videoContainer.children == old(videoContainer.children)
      ensures doRender == old(doRender) && pendingGrowOuts == old(pendingGrowOuts) && tint == old(tint)
    {
      drawn := false;
      if doRender {
        drawn := ElementInViewport(canvasElement, window);
      }
      if drawn {
        framesDrawn := framesDrawn + 1;
        var p := projectContainer.rotation;
        projectContainer.rotation := Vec3(p.x + 0.001, p.y + 0.0008, p.z - 0.0009);
        var v := videoContainer.rotation;
        videoContainer.rotation := Vec3(v.x - 0.001, v.y - 0.0008, v.z + 0.0009);
      }
    }
  }

  /**
   * Showing a new project over a single old one: right after addProject
   * both are present; once the grow-out completes only the new one is.
   */
  method ReplaceProject(c: ProjectsCanvas, old_texture: string, texture: string, draw: real)
    requires c.Valid() && JsMath.IsDraw(draw)
    requires c.projectContainer.children == [ProjectShape(old_texture)] && c.pendingGrowOuts == 0
    modifies c, c.projectContainer
    ensures c.projectContainer.children == [ProjectShape(texture)] && c.pendingGrowOuts == 0
  {
    c.AddProject(texture, draw);
    assert c.projectContainer.children == [ProjectShape(old_texture), ProjectShape(texture)];
    c.CompleteGrowOut();
  }
}
