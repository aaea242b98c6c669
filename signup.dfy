/** The sign-up form: username, password, and an append-only list of
    screenshots from an always-mounted webcam. As for sign-in, the state
    changes are a pure transition function over events, and a class with the
    component's three state fields is proved against it. */
module Signup {
  import opened Protocol

  /** The three `useState` hooks of the component. */
  datatype SignupState = SignupState(username: string, password: string, images: seq<Image>)

  /** The initial values passed to `useState`: empty strings and an empty list. */
  const Initial := SignupState("", "", [])

  /** The user interactions that change state. Submitting writes no state and
      is not an event. Every one is always on screen: there is no guard. */
  datatype Event =
    | UsernameInput(text: string)   // the username input's onChange
    | PasswordInput(text: string)   // the password input's onChange
    | CaptureClick(shot: Image)     // the "Capture Image" button, with the webcam's screenshot

  /** The state after one handler has run. */
  function Step(s: SignupState, e: Event): SignupState
  {
    match e
    case UsernameInput(text) => s.(username := text)
    case PasswordInput(text) => s.(password := text)
    case CaptureClick(shot) => s.(images := s.images + [shot])
  }

  /** The state after the events of `t`, in order. */
  function Run(s: SignupState, t: seq<Event>): SignupState
    decreases |t|
  {
    if t == [] then s else Step(Run(s, t[..|t| - 1]), t[|t| - 1])
  }

  /** The screenshots of the capture events of `t`, in call order. */
  function Shots(t: seq<Event>): seq<Image>
    decreases |t|
  {
    if t == [] then []
    else match t[|t| - 1]
      case CaptureClick(shot) => Shots(t[..|t| - 1]) + [shot]
      case _ => Shots(t[..|t| - 1])
  }

  /** One capture click per screenshot, in order. */
  function Clicks(shots: seq<Image>): seq<Event>
  {
    seq(|shots|, i requires 0 <= i < |shots| => CaptureClick(shots[i]))
  }

  /** The list only ever grows by the screenshots captured: whatever the
      events, the images are the earlier ones followed by every new
      screenshot, in call order. Typing never touches them. */
  lemma {:induction false} ImagesAreShots(s: SignupState, t: seq<Event>)
    ensures Run(s, t).images == s.images + Shots(t)
  {
    if t != [] {
      ImagesAreShots(s, t[..|t| - 1]);
    }
  }

  /** No event removes or reorders an image: every earlier image keeps its
      index, and the list grows by exactly the number of captures. */
  lemma {:induction false} OnlyAppends(s: SignupState, t: seq<Event>)
    ensures |Run(s, t).images| == |s.images| + |Shots(t)|
    ensures forall i :: 0 <= i < |s.images| ==> Run(s, t).images[i] == s.images[i]
  {
    ImagesAreShots(s, t);
  }

  /** The screenshots of `n` consecutive capture clicks are those `n` shots. */
  lemma {:induction false} ShotsOfClicks(shots: seq<Image>)
    ensures Shots(Clicks(shots)) == shots
  {
    if shots != [] {
      var t := Clicks(shots);
      assert t[..|t| - 1] == Clicks(shots[..|shots| - 1]);
      ShotsOfClicks(shots[..|shots| - 1]);
    }
  }

  /** From the freshly mounted form, after `n` captures the list holds the `n`
      screenshots in call order. */
  lemma CapturesFromStart(shots: seq<Image>)
    ensures Run(Initial, Clicks(shots)).images == shots
  {
    ImagesAreShots(Initial, Clicks(shots));
    ShotsOfClicks(shots);
  }

  /** The JSON body `{username, password, images}` of the sign-up request. */
  datatype Payload = Payload(username: string, password: string, images: seq<Image>)

  /** The mounted component. `history` is the proof's record of the events so
      far; the source has no such field. */
  class SignupForm {
    var username: string
    var password: string
    var images: seq<Image>
    ghost var history: seq<Event>

    function State(): SignupState
      reads this
    {
      SignupState(username, password, images)
    }

    /** The fields are what the recorded events produce. */
    ghost predicate Valid()
      reads this
    {
      State() == Run(Initial, history)
    }

    constructor ()
      ensures Valid() && history == []
      ensures username == "" && password == "" && images == []
    {
      username, password, images := "", "", [];
      history := [];
    }

    /** Records an event that was applied. */
    ghost method Record(e: Event)
      requires State() == Step(Run(Initial, history), e)
      modifies this`history
      ensures Valid() && history == old(history) + [e]
    {
      var h := history + [e];
      assert h[..|h| - 1] == history;
      history := h;
    }

    /** The username input's onChange. */
    method SetUsername(text: string)
      requires Valid()
      modifies this
      ensures Valid() && history == old(history) + [UsernameInput(text)]
      ensures State() == Step(old(State()), UsernameInput(text))
      ensures username == text && password == old(password) && images == old(images)
    {
      username := text;
      Record(UsernameInput(text));
    }

    /** The password input's onChange. */
    method SetPassword(text: string)
      requires Valid()
      modifies this
      ensures Valid() && history == old(history) + [PasswordInput(text)]
      ensures State() == Step(old(State()), PasswordInput(text))
      ensures password == text && username == old(username) && images == old(images)
    {
      password := text;
      Record(PasswordInput(text));
    }

    /** `captureImage`: the screenshot goes at the end of the list; the list
        grows by one, earlier images keep their indices, and the list is
        still every screenshot captured since mounting, in order. It has no
        state precondition, since the webcam is always mounted. */
    method CaptureImage(shot: Image)
      requires Valid()
      modifies this
      ensures Valid() && history == old(history) + [CaptureClick(shot)]
      ensures State() == Step(old(State()), CaptureClick(shot))
      ensures images == old(images) + [shot]
      ensures |images| == |old(images)| + 1
      ensures forall i :: 0 <= i < |old(images)| ==> images[i] == old(images)[i]
      ensures images == Shots(history)
      ensures username == old(username) && password == old(password)
    {
      images := images + [shot];
      Record(CaptureClick(shot));
      ImagesAreShots(Initial, history);
    }

    /** `handleSignup`: builds the payload from the current state, whatever
        the list holds, posts it, and maps the response to an outcome. It
        writes no state (there is no modifies clause), so after a rejection
        or an error the same images can be submitted again. The request
        carries every screenshot captured since mounting, in order. */
    method HandleSignup(response: Response) returns (payload: Payload, outcome: Outcome)
      ensures payload.username == username && payload.password == password
      ensures payload.images == images
      ensures Valid() ==> payload.images == Shots(history)
      ensures outcome == ToOutcome(response)
    {
      payload := Payload(username, password, images);
      outcome := ToOutcome(response);
      ImagesAreShots(Initial, history);
    }
  }

  /** Two captures, a submit whose request fails, and a second submit: both
      requests carry the two screenshots in capture order, and the first
      outcome is the transport error. */
  method RetryAfterErrorScenario(name: string, secret: string, first: Image, second: Image, response: Response)
    returns (p1: Payload, o1: Outcome, p2: Payload, o2: Outcome)
    ensures p1 == p2 == Payload(name, secret, [first, second])
    ensures o1 == TransportError
    ensures o2 == ToOutcome(response)
  {
    var form := new SignupForm();
    form.SetUsername(name);
    form.SetPassword(secret);
    form.CaptureImage(first);
    form.CaptureImage(second);
    p1, o1 := form.HandleSignup(Threw);
    p2, o2 := form.HandleSignup(response);
  }
}
