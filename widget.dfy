/**
 * The page: the carousel of three boxes, the drag/swipe handlers, the video
 * player with its open and close handlers, the fullscreen button and the
 * button-visibility rule, the launcher, and the two background videos
 * chosen by orientation. Every event handler of the page is a method of
 * `Page`; browser state the handlers only read is passed in as a parameter.
 */
module Widget {
  import opened Wrappers
  import opened Carousel
  import opened Fullscreen

  /** The inline `display` style of a control: not set by the script yet, "none" or "flex". */
  datatype Display = Unstyled | CssNone | CssFlex

  /** What the page controls of one video element: paused, playback position, shown. */
  datatype VideoState = VideoState(paused: bool, currentTime: real, displayed: bool)

  /** A video after the reset: paused, rewound to the start and hidden. */
  const Stopped: VideoState := VideoState(true, 0.0, false)

  /** A video shown and started from the beginning. */
  const Playing: VideoState := VideoState(false, 0.0, true)

  /** The position of the first entry of `ids` equal to `id`, or None when there is none. */
  function IndexOf(ids: seq<string>, id: string): (r: Option<nat>)
    ensures r.Some? ==> r.value < |ids| && ids[r.value] == id
    ensures r.Some? ==> forall k :: 0 <= k < r.value ==> ids[k] != id
    ensures r == None <==> forall k :: 0 <= k < |ids| ==> ids[k] != id
  {
    if ids == [] then None
    else if ids[0] == id then Some(0)
    else match IndexOf(ids[1..], id)
      case None => None
      case Some(k) => Some(k + 1)
  }

  /**
   * `document.getElementById(id)` among the player's videos: nothing for the
   * empty id, which no element carries, otherwise the first video in
   * document order whose id is `id`, or None when no video has that id. A
   * video without an id is listed with the id "".
   */
  function FindVideo(ids: seq<string>, id: string): (r: Option<nat>)
    ensures id == "" ==> r == None
    ensures r.Some? ==> r.value < |ids| && ids[r.value] == id
    ensures r.Some? ==> forall k :: 0 <= k < r.value ==> ids[k] != id
    ensures id != "" && r == None <==> id != "" && forall k :: 0 <= k < |ids| ==> ids[k] != id
  {
    if id == "" then None else IndexOf(ids, id)
  }

  class Page {
    /** Whether the device was classified as mobile when the page loaded. */
    const isMobile: bool
    /** The `data-video` attribute of each of the three boxes. */
    const boxVideo: seq<string>
    /** The id of each video in the player, in document order. */
    const videoIds: seq<string>
    /** Whether the landscape and the portrait background videos exist on the page. */
    const hasLandscape: bool
    const hasPortrait: bool

    /** The class of each of the three boxes. */
    const boxClass: array<string>
    /** The playback state of each video in the player. */
    const videos: array<VideoState>

    /** Which slot each box holds, box by box. */
    var positions: seq<Slot>
    /** The drag state: whether a press is in progress, and where it started. */
    var dragging: bool
    var dragStartX: Option<real>
    /** Whether the player carries the class "active", and its aria-hidden attribute. */
    var playerActive: bool
    var ariaHidden: bool
    /** Whether the box container carries the class "active". */
    var mainBoxActive: bool
    /** The inline display style of the launcher, the close button and the fullscreen button. */
    var launcherDisplay: Display
    var closeDisplay: Display
    var fullscreenDisplay: Display
    /** The two background videos. */
    var frontLandscape: VideoState
    var frontPortrait: VideoState
    /** The player video currently shown, if any. */
    ghost var shownVideo: Option<nat>
    /** Every call the page has made into the browser's fullscreen API, oldest first. */
    var requests: seq<Request>

    /** The slots are a permutation of the three labels and each box is classed by its slot. */
    ghost predicate SlotsValid()
      reads this`positions, boxClass
    {
      && IsArrangement(positions)
      && |boxVideo| == 3 && boxClass.Length == 3
      && (forall i :: 0 <= i < 3 ==> boxClass[i] == BoxClass(positions[i]))
    }

    /** A drag in progress has a start position. */
    ghost predicate DragValid()
      reads this`dragging, this`dragStartX
    {
      dragging ==> dragStartX.Some?
    }

    /**
     * At most one player video is shown, the one `shownVideo` names; every
     * other video is paused at the start; the player is active exactly when
     * a video is shown, and aria-hidden follows the player.
     */
    ghost predicate PlayerValid()
      reads this`playerActive, this`ariaHidden, this`shownVideo, videos
    {
      && videos.Length == |videoIds|
      && (shownVideo.Some? ==> shownVideo.value < videos.Length)
      && (forall j :: 0 <= j < videos.Length ==>
            if shownVideo == Some(j) then videos[j].displayed else videos[j] == Stopped)
      && playerActive == shownVideo.Some?
      && ariaHidden == !playerActive
    }

    /** On mobile the fullscreen button stays hidden. */
    ghost predicate ButtonsValid()
      reads this`fullscreenDisplay
    {
      isMobile ==> fullscreenDisplay == CssNone
    }

    /** The page invariant, kept by every handler. */
    ghost predicate Valid()
      reads this`positions, boxClass, this`dragging, this`dragStartX
      reads this`playerActive, this`ariaHidden, this`shownVideo, videos, this`fullscreenDisplay
    {
      SlotsValid() && DragValid() && PlayerValid() && ButtonsValid()
    }

    /**
     * The page as the script finds it when it loads: the slots in their first
     * order, no drag, the player closed, and on mobile the fullscreen button
     * hidden. The other values come from the markup.
     */
    constructor (isMobile: bool, boxVideo: seq<string>, videoIds: seq<string>,
                 hasLandscape: bool, hasPortrait: bool,
                 frontLandscape: VideoState, frontPortrait: VideoState, mainBoxActive: bool)
      requires |boxVideo| == 3
      ensures Valid() && fresh(boxClass) && fresh(videos)
      ensures this.isMobile == isMobile && this.boxVideo == boxVideo && this.videoIds == videoIds
      ensures this.hasLandscape == hasLandscape && this.hasPortrait == hasPortrait
      ensures positions == Initial && !dragging && dragStartX == None
      ensures forall j :: 0 <= j < videos.Length ==> videos[j] == Stopped
      ensures !playerActive && ariaHidden && shownVideo == None && this.mainBoxActive == mainBoxActive
      ensures launcherDisplay == Unstyled && closeDisplay == Unstyled
      ensures fullscreenDisplay == (if isMobile then CssNone else Unstyled)
      ensures this.frontLandscape == frontLandscape && this.frontPortrait == frontPortrait
      ensures requests == []
    {
      this.isMobile := isMobile;
      this.boxVideo := boxVideo;
      this.videoIds := videoIds;
      this.hasLandscape := hasLandscape;
      this.hasPortrait := hasPortrait;
      boxClass := new string[3](i => if 0 <= i < 3 then BoxClass(Initial[i]) else "");
      videos := new VideoState[|videoIds|](_ => Stopped);
      positions := Initial;
      dragging := false;
      dragStartX := None;
      playerActive := false;
      ariaHidden := true;
      shownVideo := None;
      this.mainBoxActive := mainBoxActive;
      launcherDisplay := Unstyled;
      closeDisplay := Unstyled;
      fullscreenDisplay := if isMobile then CssNone else Unstyled;
      this.frontLandscape := frontLandscape;
      this.frontPortrait := frontPortrait;
      requests := [];
    }

    /** A click on the launcher shows or hides the boxes. */
    method ToggleLauncher()
      requires Valid()
      modifies this`mainBoxActive
      ensures Valid()
      ensures mainBoxActive == !old(mainBoxActive)
    {
      mainBoxActive := !mainBoxActive;
    }

    /**
     * `rotateBoxes(direction)`: rotates the slots ("left", "right", or no change
     * for any other string) and re-classes every box by its new slot.
     */
    method RotateBoxes(direction: string)
      requires Valid()
      modifies this`positions, boxClass
      ensures Valid()
      ensures positions == Rotated(old(positions), direction)
      ensures forall i :: 0 <= i < boxClass.Length ==> boxClass[i] == BoxClass(positions[i])
    {
      var p := positions;
      if direction == "left" {
        p := p[1..] + [p[0]];
      }
      if direction == "right" {
        p := [p[|p| - 1]] + p[..|p| - 1];
      }
      assert p == Rotated(positions, direction);
      RotatedKeepsArrangement(positions, direction);
      positions := p;
      RenderBoxes();
    }

    /** Every box is given the class of the slot it now holds. */
    method RenderBoxes()
      requires |positions| == 3 && boxClass.Length == 3
      modifies boxClass
      ensures forall i :: 0 <= i < boxClass.Length ==> boxClass[i] == BoxClass(positions[i])
    {
      var i := 0;
      while i < boxClass.Length
        invariant 0 <= i <= boxClass.Length
        invariant forall k :: 0 <= k < i ==> boxClass[k] == BoxClass(positions[k])
      {
        boxClass[i] := BoxClass(positions[i]);
        i := i + 1;
      }
    }

    /** A mouse press or a touch start at horizontal position `x` (re)starts a drag. */
    method Press(x: real)
      requires Valid()
      modifies this`dragStartX, this`dragging
      ensures Valid()
      ensures dragging && dragStartX == Some(x)
    {
      dragStartX := Some(x);
      dragging := true;
    }

    /**
     * A mouse release or a touch end at horizontal position `x`: while dragging,
     * the distance from the start decides at most one rotation; the drag ends.
     */
    method Release(x: real)
      requires Valid()
      modifies this`positions, this`dragging, boxClass
      ensures Valid()
      ensures !dragging
      ensures !old(dragging) ==> positions == old(positions) && unchanged(boxClass)
      ensures old(dragging) ==>
        positions == match SwipeRotation(x - old(dragStartX).value)
                     case Some(direction) => Rotated(old(positions), direction)
                     case None => old(positions)
    {
      if !dragging {
        return;
      }
      var diff := x - dragStartX.value;
      if diff > SwipeThreshold {
        RotateBoxes("left");
      } else if diff < -SwipeThreshold {
        RotateBoxes("right");
      }
      dragging := false;
    }

    /** Every player video is paused, rewound and hidden. */
    method ResetVideos()
      modifies videos
      ensures forall j :: 0 <= j < videos.Length ==> videos[j] == Stopped
    {
      var i := 0;
      while i < videos.Length
        invariant 0 <= i <= videos.Length
        invariant forall j :: 0 <= j < i ==> videos[j] == Stopped
      {
        videos[i] := videos[i].(paused := true);
        videos[i] := videos[i].(currentTime := 0.0);
        videos[i] := videos[i].(displayed := false);
        i := i + 1;
      }
    }

    /**
     * A click on box `index`: only the box holding the front slot, and only
     * when its video exists, opens the player on that video.
     */
    method OpenVideo(index: nat)
      requires Valid()
      requires index < 3
      modifies this`playerActive, this`ariaHidden, this`mainBoxActive, this`shownVideo, videos
      ensures Valid()
      ensures positions[index] != Pos2 || FindVideo(videoIds, boxVideo[index]) == None ==>
        && unchanged(videos)
        && playerActive == old(playerActive) && ariaHidden == old(ariaHidden) && shownVideo == old(shownVideo)
        && mainBoxActive == old(mainBoxActive)
      ensures index != FrontIndex(positions) ==>
        && unchanged(videos)
        && playerActive == old(playerActive) && ariaHidden == old(ariaHidden) && shownVideo == old(shownVideo)
        && mainBoxActive == old(mainBoxActive)
      ensures positions[index] == Pos2 && FindVideo(videoIds, boxVideo[index]).Some? ==>
        && (forall j :: 0 <= j < videos.Length ==>
              videos[j] == if Some(j) == FindVideo(videoIds, boxVideo[index]) then Playing else Stopped)
        && playerActive && !ariaHidden && !mainBoxActive
        && shownVideo == FindVideo(videoIds, boxVideo[index])
    {
      if positions[index] != Pos2 {
        return;
      }
      var found := FindVideo(videoIds, boxVideo[index]);
      if found == None {
        return;
      }
      ShowVideo(found.value);
    }

    /**
     * Every video is stopped and hidden, then video `v` alone is shown and
     * played, the player opens and the boxes are hidden.
     */
    method ShowVideo(v: nat)
      requires Valid()
      requires v < videos.Length
      modifies this`playerActive, this`ariaHidden, this`mainBoxActive, this`shownVideo, videos
      ensures Valid()
      ensures forall j :: 0 <= j < videos.Length ==> videos[j] == if j == v then Playing else Stopped
      ensures playerActive && !ariaHidden && !mainBoxActive && shownVideo == Some(v)
    {
      ResetVideos();
      videos[v] := videos[v].(displayed := true);
      playerActive := true;
      shownVideo := Some(v);
      ariaHidden := false;
      mainBoxActive := false;
      videos[v] := videos[v].(paused := false);
    }

    /** `closeFullscreen()`: asks the document to leave fullscreen through the first exit method it offers. */
    method CloseFullscreen(exitMethods: Methods)
      requires Valid()
      modifies this`requests
      ensures Valid()
      ensures requests == old(requests) + ExitRequest(exitMethods)
    {
      if exitMethods.standard {
        requests := requests + [Exit(Standard)];
      } else if exitMethods.webkit {
        requests := requests + [Exit(Webkit)];
      } else if exitMethods.ms {
        requests := requests + [Exit(Ms)];
      }
    }

    /**
     * `openFullscreen(elem)`: nothing for an absent element, otherwise asks the
     * element to go fullscreen through the first request method it offers.
     */
    method OpenFullscreen(elem: Option<Methods>)
      requires Valid()
      modifies this`requests
      ensures Valid()
      ensures requests == old(requests) + (if elem == None then [] else EnterRequest(elem.value))
    {
      if elem == None {
        return;
      }
      var m := elem.value;
      if m.standard {
        requests := requests + [Enter(Standard)];
      } else if m.webkit {
        requests := requests + [Enter(Webkit)];
      } else if m.ms {
        requests := requests + [Enter(Ms)];
      }
    }

    /**
     * A click on the close button: every video is stopped and hidden, the
     * player closes, and fullscreen is left if any of the three checks sees it.
     */
    method CloseVideo(doc: Document)
      requires Valid()
      modifies this`playerActive, this`ariaHidden, this`shownVideo, this`requests, videos
      ensures Valid()
      ensures forall j :: 0 <= j < videos.Length ==> videos[j] == Stopped
      ensures !playerActive && ariaHidden && shownVideo == None
      ensures requests == old(requests) + (if IsFullscreen(doc) then ExitRequest(doc.exitMethods) else [])
    {
      ResetVideos();
      playerActive := false;
      shownVideo := None;
      ariaHidden := true;
      if doc.fullscreenElement || doc.webkitFullscreenElement || doc.msFullscreenElement {
        CloseFullscreen(doc.exitMethods);
      }
    }

    /**
     * A click on the fullscreen button, which is wired up on desktop only: it
     * asks for fullscreen on the player when the standard check sees none,
     * and asks to leave it otherwise.
     */
    method FullscreenButton(doc: Document)
      requires Valid()
      modifies this`requests
      ensures Valid()
      ensures isMobile ==> requests == old(requests)
      ensures !isMobile && !doc.fullscreenElement ==> requests == old(requests) + EnterRequest(doc.playerMethods)
      ensures !isMobile && doc.fullscreenElement ==> requests == old(requests) + ExitRequest(doc.exitMethods)
    {
      if isMobile {
        return;
      }
      if !doc.fullscreenElement {
        OpenFullscreen(Some(doc.playerMethods));
      } else {
        CloseFullscreen(doc.exitMethods);
      }
    }

    /**
     * `toggleButtons()`, run on every fullscreen change: in fullscreen every
     * control is hidden; otherwise the launcher is shown, and the close and
     * (on desktop) fullscreen buttons are shown only while the player is
     * active, being left as they were when it is not.
     */
    method ToggleButtons(doc: Document)
      requires Valid()
      modifies this`launcherDisplay, this`closeDisplay, this`fullscreenDisplay
      ensures Valid()
      ensures IsFullscreen(doc) ==>
        launcherDisplay == CssNone && closeDisplay == CssNone && fullscreenDisplay == CssNone
      ensures !IsFullscreen(doc) ==> launcherDisplay == CssFlex
      ensures !IsFullscreen(doc) && playerActive ==>
        closeDisplay == CssFlex && fullscreenDisplay == (if isMobile then CssNone else CssFlex)
      ensures !IsFullscreen(doc) && !playerActive ==>
        closeDisplay == old(closeDisplay) && fullscreenDisplay == old(fullscreenDisplay)
      ensures isMobile ==> fullscreenDisplay == old(fullscreenDisplay)
    {
      var isFullscreen := doc.fullscreenElement || doc.webkitFullscreenElement || doc.msFullscreenElement;
      if isFullscreen {
        launcherDisplay := CssNone;
        closeDisplay := CssNone;
        if !isMobile {
          fullscreenDisplay := CssNone;
        }
      } else {
        if playerActive {
          closeDisplay := CssFlex;
          if !isMobile {
            fullscreenDisplay := CssFlex;
          }
        }
        launcherDisplay := CssFlex;
      }
    }

    /**
     * `handleOrientation()`, run on load, resize and orientation change: when
     * both background videos exist, exactly one is shown and restarted from
     * the beginning (portrait only on a mobile device held upright) and the
     * other is paused and hidden, keeping its position.
     */
    method HandleOrientation(portraitOrientation: bool)
      requires Valid()
      modifies this`frontLandscape, this`frontPortrait
      ensures Valid()
      ensures !(hasLandscape && hasPortrait) ==>
        frontLandscape == old(frontLandscape) && frontPortrait == old(frontPortrait)
      ensures hasLandscape && hasPortrait ==>
        && frontLandscape.displayed != frontPortrait.displayed
        && (frontPortrait.displayed <==> isMobile && portraitOrientation)
      ensures hasLandscape && hasPortrait && isMobile && portraitOrientation ==>
        frontPortrait == Playing && frontLandscape == old(frontLandscape).(paused := true, displayed := false)
      ensures hasLandscape && hasPortrait && !(isMobile && portraitOrientation) ==>
        frontLandscape == Playing && frontPortrait == old(frontPortrait).(paused := true, displayed := false)
    {
      if !hasLandscape || !hasPortrait {
        return;
      }
      var landscape, portrait := frontLandscape, frontPortrait;
      if !isMobile {
        portrait := portrait.(paused := true);
        portrait := portrait.(displayed := false);
        landscape := landscape.(displayed := true);
        landscape := landscape.(currentTime := 0.0);
        landscape := landscape.(paused := false);
      } else if portraitOrientation {
        landscape := landscape.(paused := true);
        landscape := landscape.(displayed := false);
        portrait := portrait.(displayed := true);
        portrait := portrait.(currentTime := 0.0);
        portrait := portrait.(paused := false);
      } else {
        portrait := portrait.(paused := true);
        portrait := portrait.(displayed := false);
        landscape := landscape.(displayed := true);
        landscape := landscape.(currentTime := 0.0);
        landscape := landscape.(paused := false);
      }
      frontLandscape, frontPortrait := landscape, portrait;
    }
  }
}
