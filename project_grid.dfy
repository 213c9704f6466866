/**
 * ProjectGrid: the project navigator. The component state is the pair
 * (isProjectActive, activeProjectID); the grid's click areas open a project,
 * the prev/next buttons shown with an open project step through the list
 * with wrap-around, and close returns to the grid. After every state change
 * the projects canvas is told which project (and which video) to show.
 */
module ProjectGrid {
  import opened Wrappers
  import opened Strings
  import opened Colors
  import opened Css
  import JsMath
  import GG = GradientGenerator
  import TPC = ThreeProjectsCanvas

  /** A project record as far as the navigator uses it: its image and video URLs. */
  datatype Project = Project(images: seq<string>, videos: seq<string>)

  /** Every project has a first image: the grid's tile and addProject both read it. */
  predicate WellFormed(projects: seq<Project>) {
    forall i :: 0 <= i < |projects| ==> |projects[i].images| > 0
  }

  /** onProjectNextClick's index: one further, back to 0 past the end. */
  function NextIndex(id: nat, n: nat): (j: nat)
    requires id < n
    ensures j == (id + 1) % n
  {
    if id + 1 >= n then 0 else id + 1
  }

  /** onProjectPrevClick's index: one back, to the last project before 0. */
  function PrevIndex(id: nat, n: nat): (j: nat)
    requires id < n
    ensures j == (id - 1 + n) % n
  {
    if id - 1 < 0 then n - 1 else id - 1
  }

  /** Prev undoes next and next undoes prev. */
  lemma PrevNextInverse(id: nat, n: nat)
    requires id < n
    ensures PrevIndex(NextIndex(id, n), n) == id
    ensures NextIndex(PrevIndex(id, n), n) == id
  {
  }

  /** The project shown after k clicks on next. */
  function NextTimes(id: nat, n: nat, k: nat): (j: nat)
    requires id < n
    ensures j < n
  {
    if k == 0 then id else NextIndex(NextTimes(id, n, k - 1), n)
  }

  /** Short of the end, k clicks on next move exactly k places. */
  lemma {:induction false} NextTimesCount(id: nat, n: nat, k: nat)
    requires id + k < n
    ensures NextTimes(id, n, k) == id + k
  {
    if k > 0 {
      NextTimesCount(id, n, k - 1);
    }
  }

  /** a clicks and then b more clicks are a + b clicks. */
  lemma {:induction false} NextTimesAdd(id: nat, n: nat, a: nat, b: nat)
    requires id < n
    ensures NextTimes(id, n, a + b) == NextTimes(NextTimes(id, n, a), n, b)
  {
    if b > 0 {
      NextTimesAdd(id, n, a, b - 1);
    }
  }

  /** n clicks on next visit the whole list and come back to where they started. */
  lemma NextTimesFullCycle(id: nat, n: nat)
    requires id < n
    ensures NextTimes(id, n, n - id) == 0
    ensures NextTimes(id, n, n) == id
  {
    NextTimesCount(id, n, n - id - 1);
    assert NextTimes(id, n, n - id) == NextIndex(n - 1, n);
    NextTimesAdd(id, n, n - id, id);
    NextTimesCount(0, n, id);
  }

  /** The counter under an open project: "(id+1) of n". */
  function CounterLabel(id: nat, n: nat): string {
    NatToString(id + 1) + " of " + NatToString(n)
  }

  /**
   * The counter reads as three words: the 1-based position, "of", and the
   * number of projects; the position lies in 1..n.
   */
  lemma {:induction false} CounterLabelParts(id: nat, n: nat)
    requires id < n
    ensures Split(CounterLabel(id, n), ' ') == [NatToString(id + 1), "of", NatToString(n)]
    ensures DecimalValue(NatToString(id + 1)) == id + 1 && DecimalValue(NatToString(n)) == n
    ensures 1 <= id + 1 <= n
  {
    var a, b := NatToString(id + 1), NatToString(n);
    assert CounterLabel(id, n) == a + [' '] + ("of" + [' '] + b);
    SplitAfterHead(a, ' ', "of" + [' '] + b);
    SplitAfterHead("of", ' ', b);
    SplitWithoutSeparator(b, ' ');
    DecimalRoundTrip(id + 1);
    DecimalRoundTrip(n);
  }

  /**
   * The video URL componentDidUpdate passes to changeVideo: a random one of
   * the project's videos when it has any and the window is wider than 600,
   * otherwise none.
   */
  function VideoChoice(videos: seq<string>, innerWidth: int, draw: real): (choice: Option<string>)
    requires JsMath.IsDraw(draw)
    ensures choice.Some? <==> |videos| > 0 && innerWidth > 600
    ensures choice.Some? ==> choice.value in videos
  {
    if |videos| > 0 && innerWidth > 600 then Some(videos[JsMath.RandomIndex(draw, |videos|)]) else None
  }

  /** The shapes changeVideo appends for a choice: one video shape for a non-empty URL. */
  function VideoShapes(choice: Option<string>): seq<TPC.Shape> {
    if TPC.Truthy(choice) then [TPC.VideoShape(choice.value, 70.0, 50.0)] else []
  }

  /**
   * onProjectOver: a fresh two-colour random palette paints the tile; the
   * heading is dark grey when both colours are light and white otherwise.
   */
  method ProjectOverStyle(draws: GG.Draws, toHex: Hue -> string, isLight: Hue -> bool)
    returns (background: string, textColor: string)
    requires GG.ValidDraws(draws, 2, true)
    ensures var colors := GG.Palette(2, true, draws);
            background == LinearGradient([toHex(colors[0]), toHex(colors[1])])
    ensures var colors := GG.Palette(2, true, draws);
            textColor == "#454545" <==> isLight(colors[0]) && isLight(colors[1])
    ensures textColor == "#454545" || textColor == "white"
  {
    var generator := new GG.Generator(2, true, draws);
    var colors := generator.colors;
    assert Join([toHex(colors[0]), toHex(colors[1])], ", ") == toHex(colors[0]) + ", " + toHex(colors[1]) by {
      assert [toHex(colors[0]), toHex(colors[1])][1..] == [toHex(colors[1])];
    }
    background := GradientPrefix + toHex(colors[0]) + ", " + toHex(colors[1]) + ")";
    textColor := "white";
    if isLight(colors[0]) && isLight(colors[1]) {
      textColor := "#454545";
    }
  }

  class Grid {
    const projects: seq<Project>
    const canvas: TPC.ProjectsCanvas
    var isProjectActive: bool
    var activeProjectID: Option<nat>

    /** An open project is always a valid index; a closed one keeps its last index. */
    ghost predicate Valid()
      reads this, canvas
    {
      && WellFormed(projects)
      && canvas.Valid()
      && (isProjectActive ==> activeProjectID.Some?)
      && (activeProjectID.Some? ==> activeProjectID.value < |projects|)
    }

    /** The constructor and componentDidMount: nothing open, a fresh canvas that does not draw. */
    constructor (projects: seq<Project>)
      requires WellFormed(projects)
      ensures Valid() && this.projects == projects
      ensures !isProjectActive && activeProjectID == None
      ensures fresh(canvas) && fresh(canvas.projectContainer) && fresh(canvas.videoContainer)
      ensures !canvas.doRender
    {
      this.projects := projects;
      canvas := new TPC.ProjectsCanvas();
      isProjectActive := false;
      activeProjectID := None;
    }

    /** onProjectClick: opens project `index`. */
    method OnProjectClick(index: nat)
      requires Valid() && index < |projects|
      modifies this
      ensures Valid()
      ensures isProjectActive && activeProjectID == Some(index)
    {
      isProjectActive, activeProjectID := true, Some(index);
    }

    /** onProjectPrevClick: the previous project, the last one before the first; still open. */
    method OnProjectPrevClick()
      requires Valid() && isProjectActive
      modifies this
      ensures Valid()
      ensures activeProjectID == Some(PrevIndex(old(activeProjectID).value, |projects|))
      ensures isProjectActive == old(isProjectActive)
    {
      var prevProject := activeProjectID.value - 1;
      if prevProject < 0 {
        prevProject := |projects| - 1;
      }
      activeProjectID := Some(prevProject);
    }

    /** onProjectNextClick: the next project, the first one after the last; still open. */
    method OnProjectNextClick()
      requires Valid() && isProjectActive
      modifies this
      ensures Valid()
      ensures activeProjectID == Some(NextIndex(old(activeProjectID).value, |projects|))
      ensures isProjectActive == old(isProjectActive)
    {
      var nextProject := activeProjectID.value + 1;
      if nextProject >= |projects| {
        nextProject := 0;
      }
      activeProjectID := Some(nextProject);
    }

    /** onProjectCloseClick: back to the grid; the index of the last project stays. */
    method OnProjectCloseClick()
      requires Valid()
      modifies this
      ensures Valid()
      ensures !isProjectActive && activeProjectID == old(activeProjectID)
    {
      isProjectActive := false;
    }

    /** onImageClick: the carousel is opened on (activeProjectID, index), forwarded unchanged. */
    method OnImageClick(index: nat) returns (projectID: nat, imageIndex: nat)
      requires Valid() && isProjectActive
      ensures Some(projectID) == activeProjectID && imageIndex == index
    {
      projectID, imageIndex := activeProjectID.value, index;
    }

    /** onImageOver: the hovered image of the open project becomes the canvas's project. */
    method OnImageOver(index: nat, colorDraw: real)
      requires Valid() && isProjectActive && JsMath.IsDraw(colorDraw)
      requires index < |projects[activeProjectID.value].images|
      modifies canvas, canvas.projectContainer
      ensures Valid()
      ensures canvas.projectContainer.children
              == old(canvas.projectContainer.children) + [TPC.ProjectShape(projects[activeProjectID.value].images[index])]
      ensures canvas.tint == Spin(Lime, colorDraw * 360.0)
      ensures canvas.pendingGrowOuts
              == old(canvas.pendingGrowOuts) + (if old(canvas.projectContainer.children) != [] then 1 else 0)
      ensures canvas.projectContainer.rotation == old(canvas.projectContainer.rotation)
      ensures canvas.doRender == old(canvas.doRender) && canvas.framesDrawn == old(canvas.framesDrawn)
      ensures canvas.videoContainer.children == old(canvas.videoContainer.children)
      ensures canvas.videoContainer.rotation == old(canvas.videoContainer.rotation)
      ensures isProjectActive == old(isProjectActive) && activeProjectID == old(activeProjectID)
    {
      canvas.AddProject(projects[activeProjectID.value].images[index], colorDraw);
    }

    /**
     * componentDidUpdate. With a project open: the video is replaced by the
     * chosen one (or by none), the project's first image is added, every image
     * item loses its "active" class and the canvas starts drawing. Closed:
     * the canvas stops drawing and nothing else changes.
     */
    method ComponentDidUpdate(videoDraw: real, colorDraw: real, innerWidth: int, imageItems: array<set<string>>)
      requires Valid() && JsMath.IsDraw(videoDraw) && JsMath.IsDraw(colorDraw)
      modifies canvas, canvas.projectContainer, canvas.videoContainer, imageItems
      ensures Valid()
      ensures isProjectActive ==>
                var project := projects[activeProjectID.value];
                && canvas.videoContainer.children
                   == TPC.WithoutFirst(old(canvas.videoContainer.children))
                      + VideoShapes(VideoChoice(project.videos, innerWidth, videoDraw))
                && canvas.projectContainer.children == old(canvas.projectContainer.children) + [TPC.ProjectShape(project.images[0])]
                && canvas.tint == Spin(Lime, colorDraw * 360.0)
                && canvas.pendingGrowOuts
                   == old(canvas.pendingGrowOuts) + (if old(canvas.projectContainer.children) != [] then 1 else 0)
                && (forall i :: 0 <= i < imageItems.Length ==> imageItems[i] == old(imageItems[i]) - {"active"})
                && canvas.doRender
      ensures !isProjectActive ==>
                && canvas.videoContainer.children == old(canvas.videoContainer.children)
                && canvas.projectContainer.children == old(canvas.projectContainer.children)
                && canvas.tint == old(canvas.tint)
                && canvas.pendingGrowOuts == old(canvas.pendingGrowOuts)
                && imageItems[..] == old(imageItems[..])
                && !canvas.doRender
      ensures canvas.framesDrawn == old(canvas.framesDrawn)
      ensures canvas.projectContainer.rotation == old(canvas.projectContainer.rotation)
      ensures canvas.videoContainer.rotation == old(canvas.videoContainer.rotation)
      ensures isProjectActive == old(isProjectActive) && activeProjectID == old(activeProjectID)
    {
      if isProjectActive {
        var project := projects[activeProjectID.value];
        canvas.ChangeVideo(VideoChoice(project.videos, innerWidth, videoDraw));
        canvas.AddProject(project.images[0], colorDraw);
        var i := 0;
        while i < imageItems.Length
          modifies imageItems
          invariant 0 <= i <= imageItems.Length
          invariant forall k :: 0 <= k < i ==> imageItems[k] == old(imageItems[k]) - {"active"}
          invariant forall k :: i <= k < imageItems.Length ==> imageItems[k] == old(imageItems[k])
        {
          imageItems[i] := imageItems[i] - {"active"};
          i := i + 1;
        }
        canvas.doRender := true;
      } else {
        canvas.doRender := false;
      }
    }
  }
}
