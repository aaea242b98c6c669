/** The sign-in form: a username, a face-recognition checkbox, and a small
    camera session (camera on/off and at most one held screenshot). The state
    changes are modelled twice over: as a pure transition function over
    events, which the lemmas reason about, and as a class with the component's
    four state fields, whose methods are proved against that function. */
module Signin {
  import opened Protocol

  /** The four `useState` hooks of the component. */
  datatype SigninState = SigninState(username: string, useFace: bool, image: Option<Image>, isCameraOn: bool)

  /** The initial values passed to `useState`. */
  const Initial := SigninState("", false, None, false)

  /** The user interactions that change state. Submitting writes no state and
      is not an event. */
  datatype Event =
    | UsernameInput(text: string)   // the username input's onChange
    | StartCameraClick             // the "Start Camera" and "Recapture Image" buttons
    | CaptureClick(shot: Image)     // the "Capture Face" button, with the webcam's screenshot
    | CheckboxChange(checked: bool) // the face-recognition checkbox's onChange

  // The render tree's guards: which camera button is on screen.

  predicate StartCameraShown(s: SigninState) { s.useFace && !s.isCameraOn }

  predicate RecaptureShown(s: SigninState) { s.useFace && s.isCameraOn && s.image.Some? }

  /** The webcam (and so `webcamRef.current`) is mounted exactly when this button is. */
  predicate CaptureShown(s: SigninState) { s.useFace && s.isCameraOn && s.image.None? }

  /** Whether the user can trigger `e` in state `s`; the input, the checkbox and
      the Sign In button are always on screen. */
  predicate Enabled(s: SigninState, e: Event)
  {
    match e
    case UsernameInput(_) => true
    case StartCameraClick => StartCameraShown(s) || RecaptureShown(s)
    case CaptureClick(_) => CaptureShown(s)
    case CheckboxChange(_) => true
  }

  /** With face sign-in chosen, the capture area shows exactly one of its three
      buttons; without it, none. */
  lemma OneCameraControl(s: SigninState)
    ensures s.useFace ==> (StartCameraShown(s) || RecaptureShown(s) || CaptureShown(s))
    ensures !(StartCameraShown(s) && RecaptureShown(s))
    ensures !(StartCameraShown(s) && CaptureShown(s))
    ensures !(RecaptureShown(s) && CaptureShown(s))
    ensures !s.useFace ==> !StartCameraShown(s) && !RecaptureShown(s) && !CaptureShown(s)
  {
  }

  /** The state after one handler has run (React's batched setters applied). */
  function Step(s: SigninState, e: Event): SigninState
  {
    match e
    case UsernameInput(text) => s.(username := text)
    case StartCameraClick => s.(isCameraOn := true, image := None)
    case CaptureClick(shot) => s.(image := Some(shot))
    case CheckboxChange(checked) =>
      if checked then s.(useFace := true) else s.(useFace := false, isCameraOn := false)
  }

  /** The state after the events of `t`, in order. */
  function Run(s: SigninState, t: seq<Event>): SigninState
    decreases |t|
  {
    if t == [] then s else Step(Run(s, t[..|t| - 1]), t[|t| - 1])
  }

  /** Every event of `t` was on screen when the user triggered it. */
  predicate Allowed(s: SigninState, t: seq<Event>)
    decreases |t|
  {
    t == [] || (Allowed(s, t[..|t| - 1]) && Enabled(Run(s, t[..|t| - 1]), t[|t| - 1]))
  }

  /** The number of captures since the last camera start (since the beginning
      if there was none). */
  function CapturesSinceStart(t: seq<Event>): nat
    decreases |t|
  {
    if t == [] then 0
    else match t[|t| - 1]
      case StartCameraClick => 0
      case CaptureClick(_) => CapturesSinceStart(t[..|t| - 1]) + 1
      case _ => CapturesSinceStart(t[..|t| - 1])
  }

  /** The screenshot of the most recent capture, unless a camera start came
      after it. Toggles and typing are transparent to it. */
  function LastShot(t: seq<Event>): Option<Image>
    decreases |t|
  {
    if t == [] then None
    else match t[|t| - 1]
      case StartCameraClick => None
      case CaptureClick(shot) => Some(shot)
      case _ => LastShot(t[..|t| - 1])
  }

  /** Whatever the user did, allowed or not, the held image is the last
      screenshot not superseded by a camera start: the checkbox never clears it. */
  lemma {:induction false} ImageIsLastShot(t: seq<Event>)
    ensures Run(Initial, t).image == LastShot(t)
  {
    if t != [] {
      ImageIsLastShot(t[..|t| - 1]);
    }
  }

  /** On every path the render tree allows: while the camera is on, face
      sign-in is chosen, at most one capture happened since the last camera
      start, and an image is held exactly when one did. */
  lemma {:induction false} CameraOnMeansAtMostOneCapture(t: seq<Event>)
    requires Allowed(Initial, t)
    ensures var s := Run(Initial, t);
      s.isCameraOn ==>
        s.useFace && CapturesSinceStart(t) <= 1 && (s.image.Some? <==> CapturesSinceStart(t) == 1)
  {
    if t != [] {
      CameraOnMeansAtMostOneCapture(t[..|t| - 1]);
    }
  }

  /** The JSON body `{username, image}` of the sign-in request. */
  datatype Payload = Payload(username: string, image: Option<Image>)

  /** `{ username, image: useFace ? image : null }`. */
  function BuildPayload(username: string, useFace: bool, image: Option<Image>): (p: Payload)
    ensures p.username == username
    ensures !useFace ==> p.image == None
    ensures useFace ==> p.image == image
    ensures p.image.Some? <==> useFace && image.Some?
  {
    Payload(username, if useFace then image else None)
  }

  /** The mounted component. `history` is the proof's record of the events so
      far; the source has no such field. */
  class SigninForm {
    var username: string
    var useFace: bool
    var image: Option<Image>
    var isCameraOn: bool
    ghost var history: seq<Event>

    function State(): SigninState
      reads this
    {
      SigninState(username, useFace, image, isCameraOn)
    }

    /** The fields are what the recorded, render-allowed events produce. */
    ghost predicate Valid()
      reads this
    {
      Allowed(Initial, history) && State() == Run(Initial, history)
    }

    constructor ()
      ensures Valid() && history == []
      ensures username == "" && !useFace && image == None && !isCameraOn
    {
      username, useFace, image, isCameraOn := "", false, None, false;
      history := [];
    }

    /** Records an event that was enabled and applied. */
    ghost method Record(e: Event)
      requires Allowed(Initial, history)
      requires Enabled(Run(Initial, history), e) && State() == Step(Run(Initial, history), e)
      modifies this`history
      ensures Valid() && history == old(history) + [e]
    {
      var h := history + [e];
      assert h[..|h| - 1] == history;
      history := h;
    }

    /** The username input's onChange. */
    method SetUsername(text: string)
      requires Valid()
      modifies this
      ensures Valid() && history == old(history) + [UsernameInput(text)]
      ensures State() == Step(old(State()), UsernameInput(text))
      ensures username == text
      ensures useFace == old(useFace) && image == old(image) && isCameraOn == old(isCameraOn)
    {
      username := text;
      Record(UsernameInput(text));
    }

    /** `startCamera`, reached from "Start Camera" (camera off) or "Recapture
        Image" (an image held): the camera is on and the image cleared, from
        any prior state; nothing else changes. */
    method StartCamera()
      requires Valid()
      requires StartCameraShown(State()) || RecaptureShown(State())
      modifies this
      ensures Valid() && history == old(history) + [StartCameraClick]
      ensures State() == Step(old(State()), StartCameraClick)
      ensures isCameraOn && image == None
      ensures username == old(username) && useFace == old(useFace)
    {
      isCameraOn := true;
      image := None;
      Record(StartCameraClick);
    }

    /** `captureImage`, reachable only from "Capture Face", the one state in
        which the webcam is mounted: the screenshot is held, nothing else
        changes, and it is the one capture since the camera started. */
    method CaptureImage(shot: Image)
      requires Valid()
      requires CaptureShown(State())
      modifies this
      ensures Valid() && history == old(history) + [CaptureClick(shot)]
      ensures State() == Step(old(State()), CaptureClick(shot))
      ensures image == Some(shot)
      ensures isCameraOn == old(isCameraOn) && useFace == old(useFace) && username == old(username)
      ensures CapturesSinceStart(history) == 1
    {
      image := Some(shot);
      Record(CaptureClick(shot));
      CameraOnMeansAtMostOneCapture(history);
    }

    /** The checkbox's onChange: unticking turns the camera off but keeps the
        held image; ticking changes only `useFace`. */
    method ToggleFace(checked: bool)
      requires Valid()
      modifies this
      ensures Valid() && history == old(history) + [CheckboxChange(checked)]
      ensures State() == Step(old(State()), CheckboxChange(checked))
      ensures useFace == checked && image == old(image) && username == old(username)
      ensures isCameraOn == (checked && old(isCameraOn))
    {
      useFace := checked;
      if !checked {
        isCameraOn := false;
      }
      Record(CheckboxChange(checked));
    }

    /** `handleSignin`: builds the payload from the current state, posts it,
        and maps the response to an outcome. It writes no state, whatever the
        outcome (there is no modifies clause). After any interactions, a face
        sign-in submits the last screenshot not superseded by a camera start,
        even one taken before the checkbox was cleared and ticked again. */
    method HandleSignin(response: Response) returns (payload: Payload, outcome: Outcome)
      ensures payload == BuildPayload(username, useFace, image)
      ensures Valid() ==> payload.image == (if useFace then LastShot(history) else None)
      ensures outcome == ToOutcome(response)
    {
      payload := BuildPayload(username, useFace, image);
      outcome := ToOutcome(response);
      ImageIsLastShot(history);
    }
  }

  /** Start the camera, capture, untick and re-tick the checkbox, then submit:
      the payload carries the earlier screenshot, because the checkbox never
      cleared it, and the camera is off again. */
  method StaleImageScenario(name: string, shot: Image, response: Response)
    returns (payload: Payload, outcome: Outcome, cameraOn: bool)
    ensures payload == Payload(name, Some(shot))
    ensures !cameraOn
    ensures outcome == ToOutcome(response)
  {
    var form := new SigninForm();
    form.SetUsername(name);
    form.ToggleFace(true);
    form.StartCamera();
    form.CaptureImage(shot);
    form.ToggleFace(false);
    form.ToggleFace(true);
    payload, outcome := form.HandleSignin(response);
    cameraOn := form.isCameraOn;
  }
}
