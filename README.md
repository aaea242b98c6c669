# Face-authentication forms: capture session and submission

This project models the client side of a face-assisted sign-in and sign-up
web app: two React components that capture webcam stills and post them,
with a username (and, for sign-up, a password), to an authentication server.

- **Sign-in** (`Signin.jsx`): the state is `username`, `useFace` (the
  face-recognition checkbox), `image` (at most one held screenshot) and
  `isCameraOn`. `startCamera` turns the camera on and drops the held image.
  `captureImage` holds a screenshot. Unticking the checkbox turns the camera
  off. The render tree decides which camera button is on screen:
  "Start Camera", "Capture Face" or "Recapture Image". Submitting posts
  `{username, image: useFace ? image : null}`.
- **Sign-up** (`Signup.jsx`): the state is `username`, `password` and
  `images`, an append-only list of screenshots from a webcam that is always
  mounted. Submitting posts `{username, password, images}`, possibly with an
  empty list.
- **Both**: the awaited response is mapped to one of three outcomes. A
  truthy `success` flag gives Success. A falsy or absent flag gives Rejected.
  A request that threw gives TransportError.

Files:

- `protocol.dfy` (module `Protocol`): the opaque `Image`, JavaScript values
  and their truthiness, the response as the client sees it, and `ToOutcome`.
- `signin.dfy` (module `Signin`): the sign-in state, its events, the render
  guards (`Enabled`), the transition function `Step` and its iteration `Run`
  over event sequences, the payload, and the class `SigninForm`.
- `signup.dfy` (module `Signup`): the same for sign-up, with the class
  `SignupForm`.

Each component is modelled twice:

- as a pure transition function over user events, which the lemmas reason
  about across whole interaction histories;
- as a class with the component's own state fields. Each handler is a
  method with `modifies this`. Each method states the new field values and
  that its result is `Step` of the old state. A ghost `history` field,
  tied to the fields by `Valid()`, lets the methods use the lemmas about
  `Run`.

The submit handlers are methods without a `modifies` clause, so they cannot
change any state, whatever the outcome.

Three behaviours one might expect of a camera session are not in the code,
and the model follows the code:

- Unticking face sign-in turns the camera off but keeps the held image
  (frontend/my-app/src/components/Signin.jsx:105). Re-ticking and submitting
  therefore sends the earlier screenshot. `ImageIsLastShot`,
  `HandleSignin` and `StaleImageScenario` state this.
- Capturing outside the "Capture Face" state is not a quiet no-op in the
  code. The webcam is unmounted then, so `webcamRef.current` is null.
  The model makes the render guard a precondition of `CaptureImage`.
- The code has no double-submit guard, so none is modelled.

## Model

| member | source | states |
|---|---|---|
| Protocol.FalsyValues | frontend/my-app/src/components/Signin.jsx:36 | the `if` on the `success` flag takes its else branch exactly for the JavaScript falsy values: undefined, null, false, 0, NaN and the empty string |
| Protocol.ToOutcome | frontend/my-app/src/components/Signin.jsx:29-44 | the outcome is Success iff a body arrived with a truthy `success`; Rejected iff it arrived with a falsy or absent one; TransportError iff the request threw or the body was null (reading `.success` then throws into the same catch); the three are disjoint and exhaustive |
| Protocol.BooleanFlagOutcomes | frontend/my-app/src/components/Signup.jsx:39-47 | for the server's boolean flag, true gives Success and false gives Rejected; an absent flag gives Rejected; a thrown request gives TransportError |
| Signin.OneCameraControl | frontend/my-app/src/components/Signin.jsx:63-93 | with face sign-in ticked, exactly one of Start Camera (camera off), Capture Face (camera on, no image) and Recapture (camera on, image held) is on screen; unticked, none is |
| Signin.CameraOnMeansAtMostOneCapture | frontend/my-app/src/components/Signin.jsx:63-93 | on every interaction path the buttons allow, while the camera is on: face sign-in is ticked, at most one capture happened since the last camera start, and an image is held exactly when one did |
| Signin.ImageIsLastShot | frontend/my-app/src/components/Signin.jsx:103-106 | after any events, the held image is the last screenshot not followed by a camera start; the checkbox never clears it |
| Signin.BuildPayload | frontend/my-app/src/components/Signin.jsx:24-27 | the username is copied unchanged; the image is null whenever face sign-in is off, whatever is held, and is the held image when it is on |
| Signin.SigninForm.constructor | frontend/my-app/src/components/Signin.jsx:7-10 | empty username, face sign-in off, no image, camera off |
| Signin.SigninForm.SetUsername | frontend/my-app/src/components/Signin.jsx:60 | sets the username and changes nothing else |
| Signin.SigninForm.StartCamera | frontend/my-app/src/components/Signin.jsx:13-16 | reachable from Start Camera or Recapture; leaves the camera on and no image held, whatever the prior state; username and checkbox unchanged |
| Signin.SigninForm.CaptureImage | frontend/my-app/src/components/Signin.jsx:18-21 | reachable only from Capture Face; holds the screenshot and leaves camera, checkbox and username unchanged; afterwards exactly one capture has happened since the camera started |
| Signin.SigninForm.ToggleFace | frontend/my-app/src/components/Signin.jsx:103-106 | unticking sets face sign-in and the camera off and keeps the image; ticking changes only the checkbox |
| Signin.SigninForm.HandleSignin | frontend/my-app/src/components/Signin.jsx:23-45 | submits the payload of the current state; the outcome is the response's three-way mapping; no field changes; with face sign-in on, the image sent is the last screenshot not followed by a camera start |
| Signin.StaleImageScenario | frontend/my-app/src/components/Signin.jsx:24-27 | start, capture, untick, re-tick, submit: the request carries the earlier screenshot and the camera is off |
| Signup.ImagesAreShots | frontend/my-app/src/components/Signup.jsx:16-19 | after any events, the list is the earlier list followed by every new screenshot in call order |
| Signup.OnlyAppends | frontend/my-app/src/components/Signup.jsx:10-19 | no event removes or reorders an image: each earlier image keeps its index, and the list grows by exactly the number of captures |
| Signup.CapturesFromStart | frontend/my-app/src/components/Signup.jsx:10-19 | from the freshly mounted form, after n captures the list is the n screenshots in call order |
| Signup.SignupForm.constructor | frontend/my-app/src/components/Signup.jsx:8-10 | empty username and password, empty list |
| Signup.SignupForm.SetUsername | frontend/my-app/src/components/Signup.jsx:67 | sets the username and changes nothing else |
| Signup.SignupForm.SetPassword | frontend/my-app/src/components/Signup.jsx:75 | sets the password and changes nothing else |
| Signup.SignupForm.CaptureImage | frontend/my-app/src/components/Signup.jsx:16-19 | no precondition on the state; appends the screenshot at the end, the length grows by one, earlier images keep their indices, credentials unchanged, and the list is every screenshot since mounting |
| Signup.SignupForm.HandleSignup | frontend/my-app/src/components/Signup.jsx:22-48 | submits username, password and the whole list unchanged, possibly empty, so every screenshot since mounting goes in order; the outcome is the three-way mapping; no field changes |
| Signup.RetryAfterErrorScenario | frontend/my-app/src/components/Signup.jsx:22-48 | two captures, a submit that throws, and a resubmit: both requests carry the same two screenshots in capture order |

## Left out

- backend/app.py is not part of this model. It covers face detection and encoding, image decoding, the floating-point distance threshold, MySQL storage and Flask routing. The server's answer is an input to the submit handlers.
- The webcam: a screenshot is an opaque `Image` passed to the capture methods. The JPEG format and the 400×300 size are not modelled. A `getScreenshot()` that returns null because the video is not ready yet is not modelled either. With a null screenshot, sign-in would hold null (frontend/my-app/src/components/Signin.jsx:20), so Capture Face would stay on screen and a second capture would become possible. `CameraOnMeansAtMostOneCapture` holds only because screenshots are never null here. Sign-up would append a null to the list (frontend/my-app/src/components/Signup.jsx:18).
- axios and the network: the hardcoded URL, the JSON content-type header and the asynchronous suspension are not modelled. Any status or network failure that makes axios throw is one `Threw` response.
- Concurrent submissions: the code neither guards against a second submit while one is pending nor cancels one, and interleaved responses are not modelled.
- `alert` and `console.error`: only which of the three outcomes is chosen is modelled, not the message text.
- JSX markup, CSS, links and the display of captured images. The render tree is used only for the guards on the camera buttons.
- Numbers in the response are modelled as reals plus NaN. Infinity is not represented. `JSON.parse` turns an overflowing literal such as `1e400` into it. That changes no outcome, because Infinity is truthy like every non-zero `Number`.
