# Carousel and video player widget — a Dafny model

This project models the client-side state machine of a small "happy birthday"
page (`script.js`):

- a carousel of three boxes whose slot labels (`pos1`, `pos2`, `pos3`) rotate
  left or right;
- a drag/swipe interpreter that turns a horizontal press-and-release into at
  most one rotation, with a fixed 30-pixel threshold;
- a video player. Clicking the front box (the one holding `pos2`) opens its
  video, after every video has been stopped and rewound. The close button
  stops everything and hides the player. When one of the three
  fullscreen-element checks is set, it also asks the browser to leave
  fullscreen;
- the fullscreen helpers and their standard → WebKit → MS fallback chains,
  plus the desktop-only fullscreen button;
- the rule that shows or hides the launcher, close and fullscreen buttons
  whenever the fullscreen state changes;
- the launcher, which shows or hides the boxes;
- the orientation handler, which shows and restarts one of two background
  videos and pauses and hides the other.

The page is the class `Widget.Page`. Each event handler is one of its
methods. Its fields are the page state the script mutates: the slot order,
the drag flag and start, the box classes, the player videos, the player's
`active` class and `aria-hidden`, the boxes' `active` class, the button
display styles, the background videos, and a log of fullscreen requests.

`Page.Valid()` is the page invariant that every handler keeps:

- the slots are always a permutation of the three labels;
- every box is classed `"box " + <its slot>`;
- a drag in progress has a start position;
- at most one player video is shown, and every other video is paused at time 0;
- the player is active exactly when a video is shown;
- `aria-hidden` follows the player;
- on mobile the fullscreen button stays hidden.

The pure pieces live in separate modules:

- `Carousel`: the rotation, the swipe classification and the front slot.
- `Fullscreen`: the fallback order, the requests and the fullscreen check.
- `Wrappers`: `Option`.

What the browser owns comes in as parameters:

- the three fullscreen-element properties;
- which fullscreen methods the document and the player offer;
- whether the device is mobile, and whether the screen is in portrait;
- pointer positions.

## Model

| member | source | states |
|---|---|---|
| `Carousel.Rotated` | script.js:80-82 | a rotation is a permutation of the same length; any direction other than "left" or "right" leaves the order unchanged |
| `Carousel.LeftThenRight` | script.js:81-82 | rotating left and then right restores the original order |
| `Carousel.RightThenLeft` | script.js:81-82 | rotating right and then left restores the original order |
| `Carousel.RotateAll` | script.js:80-82 | a sequence of rotations never changes the number of slots |
| `Carousel.RotatedAt` | script.js:81-82 | position by position: after "left" box i holds the label box i + 1 held, and the last box gets the first label; after "right" box i holds the label box i − 1 held, and the first box gets the last label |
| `Carousel.RotatedKeepsArrangement` | script.js:80-82 | one rotation, in any direction, keeps three distinct labels |
| `Carousel.RotationsKeepArrangement` | script.js:80-82 | after any sequence of rotations the order is still three distinct labels |
| `Carousel.EachSlotOnce` | script.js:19 | in an arrangement each label is held by exactly one box |
| `Carousel.ArrangementIsPermutation` | script.js:19 | an order is an arrangement if and only if it is a permutation of `pos1, pos2, pos3` |
| `Carousel.PermutationIsArrangement` | script.js:19 | every permutation of the initial order has three distinct labels |
| `Carousel.SlotName` | script.js:19 | each slot is written as a four-character `"pos…"` label, and the label is `"pos2"` exactly for the front slot |
| `Carousel.BoxClassIdentifiesSlot` | script.js:83 | different slots have different labels and give different box classes, so a box's class determines its slot |
| `Carousel.FrontIndex` | script.js:119 | in every arrangement exactly one index holds `pos2` |
| `Carousel.SwipeRotation` | script.js:100-102 | a movement of more than 30 px asks for "left", one of less than −30 px asks for "right", anything in between asks for no rotation (all three as if-and-only-if) |
| `Fullscreen.Preferred` | script.js:171-173 | the method used is one that is available, and no available method comes before it in the order standard, WebKit, MS; none is used exactly when none is available |
| `Fullscreen.EnterRequest` | script.js:169-174 | entering fullscreen issues at most one request, through the preferred method, and none when no method exists |
| `Fullscreen.ExitRequest` | script.js:176-180 | leaving fullscreen issues at most one request, through the preferred method, and none when no method exists |
| `Widget.IndexOf` | script.js:122 | gives the first position holding the id, and nothing exactly when no position holds it |
| `Widget.FindVideo` | script.js:121-123 | the empty id finds nothing. Any other id finds the first video carrying it, and finds nothing exactly when no video carries it |
| `Widget.Page.constructor` | script.js:19-187 | the page starts with slots `pos1, pos2, pos3`, no drag and the player closed; on mobile the fullscreen button starts hidden |
| `Widget.Page.ToggleLauncher` | script.js:71-75 | a launcher click flips whether the boxes are shown, and changes nothing else |
| `Widget.Page.RotateBoxes` | script.js:80-84 | the new slot order is the rotation of the old one, every box is re-classed `"box " + slot`, only slots and classes change, and the invariant holds |
| `Widget.Page.RenderBoxes` | script.js:83 | every box's class is `"box "` followed by the label of its current slot |
| `Widget.Page.Press` | script.js:90-97 | a press always starts a drag at the pressed position, even during a drag |
| `Widget.Page.Release` | script.js:98-111 | a release during a drag rotates the slots exactly as `SwipeRotation` says (once at most); any release ends the drag; a release with no drag changes nothing |
| `Widget.Page.ResetVideos` | script.js:126-130 | every player video is afterwards paused, at time 0 and hidden |
| `Widget.Page.OpenVideo` | script.js:117-141 | a click on a non-front box, or on a box whose video does not exist, changes nothing; otherwise only the selected video is shown and playing, every other video is paused at 0 and hidden, the player is active with aria-hidden false, and the boxes are hidden; in particular, only the one box at `FrontIndex` can change anything |
| `Widget.Page.ShowVideo` | script.js:125-139 | after a reset of all videos, only video `v` is shown and playing, the player is active and not aria-hidden, the boxes are hidden, and the invariant holds |
| `Widget.Page.CloseFullscreen` | script.js:176-180 | the request log gains exactly the exit request of the first exit method available |
| `Widget.Page.OpenFullscreen` | script.js:169-174 | an absent element adds no request; otherwise the log gains the enter request of the first method the element offers |
| `Widget.Page.CloseVideo` | script.js:146-164 | every video ends paused, at 0 and hidden; the player is inactive with aria-hidden true; an exit is requested if and only if one of the three fullscreen checks is set |
| `Widget.Page.FullscreenButton` | script.js:185-194 | on mobile a click does nothing; on desktop it requests entry on the player if and only if the standard `fullscreenElement` is unset, and requests exit otherwise |
| `Widget.Page.ToggleButtons` | script.js:199-216 | in fullscreen all three controls end up hidden, whatever their earlier state; otherwise the launcher is shown; close and fullscreen (the latter desktop only) are shown while the player is active and left untouched when it is not; on mobile the fullscreen button is never written |
| `Widget.Page.HandleOrientation` | script.js:27-59 | if either background video is missing, nothing changes; otherwise exactly one is shown, portrait if and only if the device is mobile and in portrait; the shown one restarts at 0, and the other is paused and hidden at its current time |

## Left out

- Event-listener registration and element lookup (script.js:4-14, 64-66, 218-220) are wiring. Each handler is a method, and the elements are fields of `Page`.
- `Widget.FindVideo` searches only the player's videos. In the source, `document.getElementById` could also return some other element, such as a background video, with the box's id. The model does not capture that case. A player video without an id is listed with the id `""`. The empty id never matches, just as `getElementById("")` returns null.
- `play()` returns a promise. Its rejection, and the `console.log` or `catch` that follows, are asynchronous browser behaviour. `play()` is modelled as clearing `paused`. A rejection never undoes any state in the source.
- The browser's actual fullscreen behaviour is external. The fullscreen state and the available methods are inputs (`Fullscreen.Document`). Requests are appended to `requests` and never change the fullscreen state.
- The user-agent test (script.js:22) and the `(orientation: portrait)` media query (script.js:42) are platform probes. They become the `isMobile` constant and the `portraitOrientation` parameter.
- CSS and layout meaning of `pos1..3` and `active`, and `e.stopPropagation()` (script.js:148), are presentation only.
- Mouse and touch handlers differ only in where the x coordinate comes from (`e.clientX`, `e.touches[0].clientX`, `e.changedTouches[0].clientX`). Both become `Press(x)` and `Release(x)`.
- Coordinates and `currentTime` are unbounded `real`s; floating-point rounding is not modelled.
- The markup is assumed to have exactly three boxes, initially classed by their slots. The source would class a fourth box `"box undefined"`.
- The markup is also assumed to start with every player video hidden, paused and at time 0, the player inactive and `aria-hidden` "true".
- Writes to a missing launcher, close or fullscreen button are skipped by the source. The model keeps a display field for all three.
- `mainBox` and `videoPlayer` are assumed present. The source uses them unguarded, and a missing one would throw partway through a handler.
- `aria-hidden` is a boolean (true for "true"). Button display styles are `Unstyled`, `CssNone` or `CssFlex`. Video visibility is `displayed` (true for "block", false for "none").
- The orientation handler writes its two videos' fields one by one. The model builds them on local copies and stores both at the end. Handlers run to completion, so no difference is observable.
- `script.js` has none of the following, so the model has none of them either:
  - an automatic close of the video when fullscreen is exited;
  - a listener for the iOS-only end-of-fullscreen event;
  - attaching native controls before entering fullscreen;
  - a click on a side box that rotates the carousel.
