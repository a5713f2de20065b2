# Fall-detection monitoring system: a Dafny model of its decision logic

The system watches a room with a Raspberry Pi camera. A vision model tracks people and
classifies each one as standing, walking, sitting, eating or one of three kinds of fall.
When a fall is seen, the edge camera posts an alert to the backend, subject to a
five-second cooldown. The backend drives a strobe and a siren through relays and keeps
an acknowledgement button. A silence schedules a background task that, once it has
started, suppresses further alarms for a 90-second snooze. The backend also serves REST
routes for cameras, locations and users. A React dashboard shows live frames and recent
incidents, and lets the user page through the cameras and manage users. Its account page
has a password-change form, but the request function that form imports is not defined
in this repository (see "## Left out").

This project models that decision logic and proves properties of it:

- **`Hardware`** (hardware.dfy) is the alarm controller.
  - Its state is two flags, the two relay outputs and a log of the socket emits.
  - The background snooze task is split into its two halves: when the task starts it
    sets the snooze flag (`SnoozeBegin`), and when it wakes from its sleep it clears the
    flag (`SnoozeEnd`).
  - Every operation is a pure function. The class `HardwareAlertSystem` performs the
    same steps on its fields.
  - The invariant `Inv` is proved for every reachable state. It says the relays are on
    exactly while alarming, and that the log is a run of complete sessions (alert,
    acknowledgement, snooze scheduled) followed by at most one open alert.
- **`EdgeCamera`** (picam.dfy) covers:
  - the cooldown gate in front of the alert POST;
  - the fall and sitting class checks;
  - the per-track sitting start times;
  - the per-frame class counts;
  - the every-third-frame skip.

  The tracking loop's iteration is an imperative method, proved against fold functions
  over the frame's detections.
- **`CameraRoutes`** (camera_routes.dfy) models the camera and location routes.
  - The routes run over in-memory tables with auto-increment keys.
  - The 400, 404, 409, 201 and 200 outcomes are modelled.
  - The table invariant (keys positive, distinct and below the counter; location names
    unique) is preserved.
- **`UserRoutes`** (user_routes.dfy) models:
  - the `admin_required` gate;
  - the `login` decision tree, with the bcrypt comparison as a parameter;
  - the `get_all_users` listing.

  The proofs also show that the token identity `str(user.id)` parses back to the same
  user.
- **`CameraSocketHook`** (use_camera.dfy) models the dashboard's socket hook:
  - the updater for new incidents (prepend, keep ten);
  - the updater for camera frames;
  - the connection flag.
- **`CameraGrid`** (camera_grid.dfy) models page navigation, the step back after an
  empty page, the disabled buttons, and the choice between focus mode and grid mode.
- **`UserEditModal`** (user_edit_modal.dfy) models the add/edit user form: its
  initial data and its submit checks.
- **`AccountSettings`** (account_settings.dfy) models the password-change form:
  - its submit checks;
  - the message for every outcome of the request;
  - the field reset on success;
  - `isFormValid`.
- **`Common`** (common.dfy) holds shared helpers:
  - the optional value;
  - the truthiness of an optional string or integer, as Python and JavaScript define it;
  - ASCII lower-casing;
  - a substring search;
  - decimal printing and parsing of integers, with `ParseInt(IntToDecimal(n)) == Some(n)`.

Modelling choices:

- **Inputs as parameters.** Clock readings are parameters. The edge camera's clock is an
  integer count of milliseconds. The controller's alert timestamp is whole seconds, as
  `int(time.time())` gives it. The HTTP request bodies are datatypes whose missing keys are `None`. The
  outcome of each network call is a parameter too: whether each alert POST raised (one
  outcome per detection of the frame), and how `changePassword` would end.
- **The snooze flag.** The silence sequence does not set the flag. It only schedules
  the background task that sets it, and the model follows the code in this.
  - `Hardware.TriggerBeforeSnoozeTaskStartsRearms` proves the consequence: a fall
    reported after the silence but before the task has started raises a new alarm.
  - Once that task starts, the controller is both alarming and snoozed.
  - `Hardware.OverlappingSnoozeTasksEndEarly` shows that, with two overlapping tasks, the
    first to wake clears the flag while the second is still sleeping.

## Model

| member | source | states |
|---|---|---|
| Hardware.Initial | backend/hardware.py:15-27 | a new controller has both flags and both relays off, an empty emit log and no snooze task |
| Hardware.Trigger | backend/hardware.py:29-56 | a fall while snoozed or already alarming changes nothing; otherwise the controller alarms, both relays turn on, and exactly one `incident_alert` of type 'Fall Detected' with the location and time is emitted |
| Hardware.Stopped | backend/hardware.py:94-98 | stopping turns both relays off and clears the alarming flag, leaving the snooze flag and the log alone |
| Hardware.SilenceSequence | backend/hardware.py:80-92 | the silence sequence stops the alarm, emits `alert_acknowledged` with status 'acknowledged', then schedules one snooze task; the snooze flag is untouched |
| Hardware.ButtonPress | backend/hardware.py:58-66 | the button runs the silence sequence exactly when alarming, and otherwise does nothing |
| Hardware.RemoteSilence | backend/hardware.py:68-78 | the web silence makes the same transition as the button and returns true exactly when an alarm was active |
| Hardware.SnoozeStarted | backend/hardware.py:100-106 | a started snooze task sets the snooze flag and moves from scheduled to running; alarm, relays and log are unchanged |
| Hardware.SnoozeFinished | backend/hardware.py:108-111 | a task waking from its sleep clears the snooze flag unconditionally |
| Hardware.ApplyKeepsInv | backend/hardware.py:29-111 | every operation preserves the invariant: relays on exactly while alarming, the snooze flag only set by a running task, the log a run of complete alarm sessions |
| Hardware.RunKeepsInv | backend/hardware.py:29-111 | any sequence of operations preserves the invariant |
| Hardware.ReachableStatesKeepInv | backend/hardware.py:15-111 | every state reachable from a new controller satisfies the invariant |
| Hardware.AlertsAreSeparatedByAcknowledgement | backend/hardware.py:38-56 | two `incident_alert` emits are always separated by an `alert_acknowledged`, directly after the first, so a second alarm is never raised over a ringing one |
| Hardware.SecondSilenceDoesNothing | backend/hardware.py:58-78 | right after a silence, another silence from either entry point changes nothing, and the web one reports false |
| Hardware.TriggerBeforeSnoozeTaskStartsRearms | backend/hardware.py:33-45 | a fall between the silence and the start of its snooze task alarms again, and the task then makes the controller alarming and snoozed at once |
| Hardware.OverlappingSnoozeTasksEndEarly | backend/hardware.py:100-111 | with two overlapping snooze tasks, the first to wake clears the flag while the other is still sleeping, so a fall alarms again |
| Hardware.NominalSession | backend/hardware.py:29-111 | a fall alarms, a repeated report is ignored, the button silences, a fall during the snooze is dropped, and a fall after it alarms again |
| Hardware.HardwareAlertSystem.constructor | backend/hardware.py:5-27 | the object's state is the initial controller |
| Hardware.HardwareAlertSystem.TriggerAlert | backend/hardware.py:29-56 | `trigger_alert` changes the fields as `Trigger` does, with 'Unknown' as the default location |
| Hardware.HardwareAlertSystem.HandleButtonPress | backend/hardware.py:58-66 | `handle_button_press` changes the fields as `ButtonPress` does |
| Hardware.HardwareAlertSystem.HandleRemoteSilence | backend/hardware.py:68-78 | `handle_remote_silence` changes the fields as `RemoteSilence` does and returns its flag |
| Hardware.HardwareAlertSystem.ExecuteSilenceSequence | backend/hardware.py:80-92 | `_execute_silence_sequence` changes the fields as `SilenceSequence` does |
| Hardware.HardwareAlertSystem.StopAlarm | backend/hardware.py:94-98 | `stop_alarm` changes the fields as `Stopped` does |
| Hardware.HardwareAlertSystem.SnoozeBegin | backend/hardware.py:100-106 | the first half of `start_snooze_timer` changes the fields as `SnoozeStarted` does |
| Hardware.HardwareAlertSystem.SnoozeEnd | backend/hardware.py:108-111 | the second half of `start_snooze_timer` changes the fields as `SnoozeFinished` does |
| EdgeCamera.CooldownOver | edge_camera/picam.py:75 | a send is allowed once at least `ALERT_COOLDOWN`, 5000 ms, have passed since the last recorded send |
| EdgeCamera.IsFall | edge_camera/picam.py:183 | a class name is a fall exactly when its ASCII-lower-cased form contains 'fall' |
| EdgeCamera.IsSitting | edge_camera/picam.py:196 | `class_name.lower() == 'sitting'`; which names pass is stated by `SittingInAnyCase` |
| EdgeCamera.FallClassesAreFalls | edge_camera/picam.py:48-50 | each of the model's three fall classes passes the fall check |
| EdgeCamera.FallAtIsFall | edge_camera/picam.py:183 | a name holding 'fall' in lower case at some position passes the fall check, whatever the case of the rest |
| EdgeCamera.NoEffIsNotFall | edge_camera/picam.py:183 | a name without an 'f' in either case does not pass the fall check |
| EdgeCamera.OtherClassesAreNotFalls | edge_camera/picam.py:44-47 | standing, walking, sitting and eating do not pass the fall check |
| EdgeCamera.SittingInAnyCase | edge_camera/picam.py:196 | the sitting check accepts a name exactly when it is 'sitting' with each letter in either case |
| EdgeCamera.OtherClassesAreNotSitting | edge_camera/picam.py:44-50 | 'sitting' passes the sitting check, and none of the model's six other classes does |
| EdgeCamera.SendAlert | edge_camera/picam.py:70-97 | inside the 5-second cooldown nothing is posted and the send time stays; otherwise exactly one POST with location 'Camera 1 (Pi)', the class and the track id; the send time moves only when the POST did not raise |
| EdgeCamera.GateStep | edge_camera/picam.py:183-190 | a fall detection goes through `SendAlert` with its class name and track id; any other detection leaves the gate alone |
| EdgeCamera.SittingStep | edge_camera/picam.py:196-216 | a sitting detection keeps its track's start time or starts it at `now`; any other detection drops its track; other tracks are untouched |
| EdgeCamera.CountStep | edge_camera/picam.py:180 | the class's count goes up by one, starting from 0 for a class not yet seen; other classes are untouched |
| EdgeCamera.FallCount | edge_camera/picam.py:183 | the number of fall detections in a frame, at most the number of detections; `FailedPostsAreRetried` uses it as the number of POSTs made |
| EdgeCamera.FailedPostsAreRetried | edge_camera/picam.py:75-97 | when every POST of a frame raises, the send time never moves, so every fall in a frame posts again once the cooldown is over, and none posts while it is not |
| EdgeCamera.OneSuccessfulPostPerFrame | edge_camera/picam.py:75-97 | when every POST of a frame goes through, a frame with a fall outside the cooldown posts exactly once and records the frame's time; any other frame changes nothing |
| EdgeCamera.SittingStartOfTrack | edge_camera/picam.py:196-198 | a track seen only sitting gets an entry if it had none, with the frame's time, and keeps a start time it already had |
| EdgeCamera.NotSittingRemovesTrack | edge_camera/picam.py:214-216 | a track whose last detection in the frame is not sitting has no sitting start time afterwards |
| EdgeCamera.ClassNames | edge_camera/picam.py:177-178 | the frame's class names, one per detection, in order |
| EdgeCamera.ClassCountsAreMultiplicities | edge_camera/picam.py:173-180 | each class name maps to the number of the frame's detections of that class, and only classes seen are present |
| EdgeCamera.RunsTracker | edge_camera/picam.py:141 | the tracker runs when the frame count before the increment is a multiple of `SKIP_FRAMES`, 3 |
| EdgeCamera.TrackerRunsEveryThirdFrame | edge_camera/picam.py:141-170 | the tracker runs on (n+2)/3, rounded down, of the first n iterations, starting with the first |
| EdgeCamera.EdgeCamera.constructor | edge_camera/picam.py:107-112 | no send time yet, no sitting tracks, no detections, frame count 0 |
| EdgeCamera.EdgeCamera.SendAlertToBackend | edge_camera/picam.py:70-97 | `send_alert_to_backend` changes the gate state as `SendAlert` does |
| EdgeCamera.EdgeCamera.ProcessDetection | edge_camera/picam.py:176-216 | one detection updates the class count, sends a fall through the gate, and starts or drops the track's sitting time |
| EdgeCamera.RetriesUntilTheFirstSuccess | edge_camera/picam.py:75-97 | in a frame of four falls whose first two POSTs raise and third goes through, three POSTs are made, the send time moves to the frame's time, and the fourth fall posts nothing |
| EdgeCamera.EdgeCamera.TrackingIteration | edge_camera/picam.py:139-216 | one loop pass re-runs the tracker only on every third frame, counts the frame, and leaves counts, sitting times and gate as the folds over the frame's detections define, each POST with its own outcome |
| CameraRoutes.FindLocation | backend/routes/camera_routes.py:51 | the location with that key, or none exactly when no row has it |
| CameraRoutes.LocationNamed | backend/routes/camera_routes.py:110 | true exactly when some location has that name |
| CameraRoutes.FindCamera | backend/routes/camera_routes.py:136 | the position of the camera with that key, or none exactly when no row has it |
| CameraRoutes.LocationNameOf | backend/routes/camera_routes.py:29 | the camera's location name, or none exactly when it has no location id or no row matches it |
| CameraRoutes.CameraEntry | backend/routes/camera_routes.py:22-30 | the dictionary for one camera: its key, name, status, stream URL, location id and `LocationNameOf` |
| CameraRoutes.GetAllLocations | backend/routes/camera_routes.py:86-94 | status 200 and one `{id, name}` per location, in table order |
| CameraRoutes.RemoveAt | backend/routes/camera_routes.py:142 | removing one row keeps the rows before it and shifts the rows after it down by one |
| CameraRoutes.RemoveCameraKeepsOthers | backend/routes/camera_routes.py:142-143 | deleting the camera with a key keeps keys distinct and in range, and keeps exactly the other cameras |
| CameraRoutes.Database.Valid | backend/models.py:25-45 | the table invariant: primary keys positive, distinct and below the next key, and location names unique (`unique=True`) |
| CameraRoutes.Database.constructor | backend/models.py:25-45 | empty location and camera tables, with both auto-increment primary keys starting at 1 |
| CameraRoutes.Database.GetAllCameras | backend/routes/camera_routes.py:11-32 | status 200 and one entry per camera, in table order, with its location name or none |
| CameraRoutes.Database.CreateCamera | backend/routes/camera_routes.py:37-78 | a missing or falsy name or location id gives 400 and an unknown location 404, both with nothing added; otherwise one active camera with the next key is appended and 201 returns it with its location name; the table invariant holds |
| CameraRoutes.Database.CreateLocation | backend/routes/camera_routes.py:98-123 | a missing or empty name gives 400 and a taken name 409, both with nothing added; otherwise one location with the next key is appended and returned with 201; names stay unique |
| CameraRoutes.Database.DeleteCamera | backend/routes/camera_routes.py:129-145 | an unknown key gives 404 and changes nothing; otherwise exactly that camera is removed and the message is 'Camera N deleted' |
| UserRoutes.FindUserById | backend/routes/user_routes.py:27 | the user with that key, or none exactly when no row has it |
| UserRoutes.FindUserByName | backend/routes/user_routes.py:53 | the first user with that name, or none exactly when no row has it |
| UserRoutes.RoleNameOf | backend/routes/user_routes.py:108 | the role's name, or 'User' for a user without a role |
| UserRoutes.IsAdmin | backend/routes/user_routes.py:30 | `user and user.role and user.role.role_name == 'Admin'` |
| UserRoutes.AdminRequired | backend/routes/user_routes.py:14-38 | the handler runs exactly when the identity parses as an integer and that user exists with role 'Admin'; 403 for any other parsed identity; 500 exactly when the identity is not an optional sign followed by decimal digits |
| UserRoutes.Login | backend/routes/user_routes.py:43-80 | 400 exactly when username or password is missing or empty; 200 exactly when the first user with that name has a stored hash the password matches, returning its id, name, role (default 'User') and `str(id)` as the token identity; every other failure is the same 401 |
| UserRoutes.UnknownUserLooksLikeWrongPassword | backend/routes/user_routes.py:56-80 | a wrong password for an existing user gets the same reply as a login against a table without that user name |
| UserRoutes.RemoveUsersNamed | backend/routes/user_routes.py:53 | the table without the users of a given name |
| UserRoutes.RemoveUsersNamedDropsName | backend/routes/user_routes.py:53 | no user of that name is found afterwards |
| UserRoutes.GetAllUsers | backend/routes/user_routes.py:104-116 | one entry per user, in table order, with `id` and `userId` both the user's key, the user's names, and the role or 'User' |
| UserRoutes.GetAllUsersRoute | backend/routes/user_routes.py:97-118 | the listing is produced only when the admin gate lets the request through |
| UserRoutes.LoginTokenPassesGateIffAdmin | backend/routes/user_routes.py:23-30 | with distinct keys, the identity a login issues passes the admin gate exactly when the user who logged in is an admin |
| UserRoutes.FindByIdOfUniqueMember | backend/routes/user_routes.py:27 | with distinct keys, looking up a user's key finds that user |
| CameraSocketHook.PrependIncident | src/hooks/useCamera.js:44-47 | the new alert is at index 0, the list holds at most 10, earlier alerts follow in order, and only the oldest is dropped, only from a full list |
| CameraSocketHook.SetFrame | src/hooks/useCamera.js:36-41 | the camera's entry becomes the frame and every other entry is unchanged |
| CameraSocketHook.Reverse | src/hooks/useCamera.js:46 | the sequence in reverse order |
| CameraSocketHook.IncidentsAreLatestNewestFirst | src/hooks/useCamera.js:44-47 | after any alerts the list is the latest ten (or fewer), newest first |
| CameraSocketHook.LatestFrame | src/hooks/useCamera.js:36-41 | the last frame sent for a camera, or none exactly when it sent none |
| CameraSocketHook.FramesAreLatestPerCamera | src/hooks/useCamera.js:36-41 | after any frame events, each camera shows its latest frame, and only cameras that sent one appear |
| CameraSocketHook.ElevenAlertsDropTheFirst | src/hooks/useCamera.js:46 | after eleven alerts the first has dropped off and the newest leads |
| CameraSocketHook.CameraSocket.constructor | src/hooks/useCamera.js:11-13 | no frames, no incidents, not connected |
| CameraSocketHook.CameraSocket.OnConnect | src/hooks/useCamera.js:25-28 | connecting sets the flag and changes nothing else |
| CameraSocketHook.CameraSocket.OnDisconnect | src/hooks/useCamera.js:30-33 | disconnecting clears the flag and changes nothing else |
| CameraSocketHook.CameraSocket.OnCameraFrame | src/hooks/useCamera.js:36-41 | a frame updates the map as `SetFrame` does and changes nothing else |
| CameraSocketHook.CameraSocket.OnIncidentAlert | src/hooks/useCamera.js:44-47 | an alert updates the list as `PrependIncident` does and keeps it at 10 or fewer |
| CameraGrid.NextPage | src/components/CameraGrid.jsx:70-72 | never past `totalPages`, at most one page on, and exactly one page on below the last page |
| CameraGrid.PrevPage | src/components/CameraGrid.jsx:74-76 | never below 1, at most one page back, and exactly one page back above the first page |
| CameraGrid.PrevDisabled | src/components/CameraGrid.jsx:93 | Previous is disabled on page 1 or when there are no pages |
| CameraGrid.NextDisabled | src/components/CameraGrid.jsx:107 | Next is disabled on the last page or when there are no pages |
| CameraGrid.PageAfterFetch | src/components/CameraGrid.jsx:49-51 | an empty page after page 1 steps back exactly one page; any other fetch keeps the page |
| CameraGrid.EnabledButtonsMoveOnePage | src/components/CameraGrid.jsx:70-76 | from a page in range, an enabled Next or Previous moves exactly one page and stays in range |
| CameraGrid.ClampsAtTheEnds | src/components/CameraGrid.jsx:70-76 | Next on the last page and Previous on the first page (where the grid starts) leave the page alone |
| CameraGrid.FocusedCamera | src/components/CameraGrid.jsx:67 | a camera on the page with the focused id, or none exactly when no id is set or no camera has it |
| CameraGrid.ShowFocusMode | src/components/CameraGrid.jsx:139 | focus mode exactly when a non-zero id is set and a camera on the page has it; grid mode otherwise |
| CameraGrid.FocusedCameraIsFirstMatch | src/components/CameraGrid.jsx:67 | the focused camera is the first on the page with that id |
| UserEditModal.OrElse | src/components/UserEditModal.jsx:20-25 | `value \|\| fallback`: the value when present and non-empty, the fallback otherwise |
| UserEditModal.InitialFormData | src/components/UserEditModal.jsx:13-30 | a new user starts with empty fields, role 'User' and no id; an edited user's present, non-empty fields are taken over, and a missing or empty one becomes '' (names) or 'User' (role); the id is kept exactly when it is non-zero; passwords start empty and the roles are Admin and User |
| UserEditModal.DetailsFilled | src/components/UserEditModal.jsx:45 | first name, last name, user name and role are all non-empty |
| UserEditModal.PasswordLongEnough | src/components/UserEditModal.jsx:50 | when editing any password passes; when adding it needs 8 characters or more |
| UserEditModal.HandleFormSubmit | src/components/UserEditModal.jsx:40-63 | the checks run in the order details, length (adding only), match, the first failure giving its message; the form goes to `onSave` unchanged exactly when all pass |
| UserEditModal.SaveErrorMessage | src/components/UserEditModal.jsx:67-70 | a failed save shows the error's message when it is present and non-empty, and exactly 'Error saving user data.' otherwise |
| UserEditModal.SavedNewUserHasStrongPassword | src/components/UserEditModal.jsx:50-58 | a new user is saved only with a matching password of at least 8 characters |
| UserEditModal.EditingSkipsLengthCheck | src/components/UserEditModal.jsx:50 | when editing, a matching password of any length, the empty one included, passes |
| UserEditModal.FreshEditFormIsSaved | src/components/UserEditModal.jsx:19-58 | an edit dialog opened for a fully filled-in user and submitted unchanged saves |
| UserEditModal.FreshAddFormIsRejected | src/components/UserEditModal.jsx:19-48 | a fresh add dialog is rejected for missing details |
| AccountSettings.ValidationError | src/components/AccountSettingsForm.jsx:91-99 | no error exactly when the new password has 8 characters or more and equals the confirmation; the length message takes precedence |
| AccountSettings.JsText | src/components/AccountSettingsForm.jsx:108 | the server message as concatenation prints it, 'undefined' when it is missing |
| AccountSettings.FriendlyError | src/components/AccountSettingsForm.jsx:120-122 | an error mentioning 'Invalid current password' shows the fixed friendly text, any other shows its own message, and an empty one shows the network fallback |
| AccountSettings.ResultMessage | src/components/AccountSettingsForm.jsx:105-124 | success exactly for status 'success', with the server message and the re-login advice; any other result shows its message or 'Password update failed.'; a thrown error shows `FriendlyError`'s text |
| AccountSettings.IsFormValid | src/components/AccountSettingsForm.jsx:130 | true exactly when all three fields are non-empty, new equals confirmation, and the profile has loaded |
| AccountSettings.AcceptedFormIsValid | src/components/AccountSettingsForm.jsx:92-99 | a form that passes the submit checks with its current password filled in has the button enabled |
| AccountSettings.ShortPasswordPassesButtonNotSubmit | src/components/AccountSettingsForm.jsx:92-95 | the button is enabled for a short matching password, which the submit check then rejects |
| AccountSettings.WrongCurrentPasswordIsFriendly | src/components/AccountSettingsForm.jsx:120-122 | every error message containing 'Invalid current password' becomes the friendly text |
| AccountSettings.AccountSettingsForm.constructor | src/components/AccountSettingsForm.jsx:24-31 | empty password fields, profile loading, no message |
| AccountSettings.AccountSettingsForm.HandleSubmit | src/components/AccountSettingsForm.jsx:87-128 | a rejected form shows the check's message, makes no request and keeps the fields; otherwise one request with the current and new passwords is made and the outcome's message shown; success clears all three fields, failure keeps them |
| Common.LowerChar | edge_camera/picam.py:183 | an ASCII capital becomes the lower-case letter 32 code points above it; every other character is kept |
| Common.ToLower | edge_camera/picam.py:183 | same length; each ASCII capital becomes its lower-case letter, every other character is kept, and no ASCII capital is left |
| Common.Contains | edge_camera/picam.py:183 | Python's `in` on strings, by scanning; its meaning is stated by `ContainsIffOccurs` |
| Common.ContainsIffOccurs | edge_camera/picam.py:183 | the substring scan succeeds exactly when the substring occurs at some position |
| Common.ParseInt | backend/routes/user_routes.py:24 | `int(s)`: a value exactly when the string is an optional sign followed by one or more decimal digits, none otherwise; a '-' sign gives a value of at most 0, any other at least 0 |
| Common.NonIntegersAreRejected | backend/routes/user_routes.py:24 | the empty string, a bare '-', '1a' and ' 1' do not parse; '+7' gives 7 and '-0' gives 0 |
| Common.IntToDecimal | backend/routes/user_routes.py:65 | `str(n)`: a minus sign for a negative number, then the digits without leading zeros; `ParseIntOfDecimal` reads it back |
| Common.ParseIntOfDecimal | backend/routes/user_routes.py:24 | `int(str(n)) == n` for every integer |
| Common.DigitsValueOfDecimal | backend/routes/user_routes.py:24 | reading back the decimal digits of a natural number gives the number |

## Left out

- Hardware.HardwareAlertSystem: the GPIO devices, the button's callback thread and the socket server are not modelled. The relay outputs and the emits are fields of the state instead.
- Hardware.SnoozeStarted, Hardware.SnoozeFinished: `socketio.sleep(90)` is left out. The points at which a task starts and wakes are steps the environment chooses, not clock times.
- Hardware.HardwareAlertSystem: the model assumes no two handlers run at once. The eventlet scheduler's interleaving is not modelled beyond the separate start and wake steps of the snooze task.
- Hardware.Trigger: `int(time.time())` is a parameter. The console prints are left out.
- EdgeCamera: the camera capture, the vision model's tracking, box drawing, the MJPEG stream, the Flask routes of the camera process and the log files are left out. One iteration receives the tracker's detections as a parameter.
- EdgeCamera.EdgeCamera.TrackingIteration: each iteration uses one clock reading. The source reads `time.time()` separately for the cooldown, the send time and the sitting start.
- EdgeCamera.SendAlert: the failure of `requests.post` is the parameter `postOk`. The 0.5-second timeout is part of that failure.
- EdgeCamera: the sitting-time display, with its 10-second threshold and half-second alert window, is left out. Floating-point seconds are integer milliseconds.
- EdgeCamera.IsFall: lower-casing covers ASCII letters only. The class names are ASCII.
- EdgeCamera.IsSitting: lower-casing covers ASCII letters only, as for the fall check.
- CameraRoutes: a failed database commit (and its rollback with a 500 reply) is not modelled, and neither are exceptions in the listing routes. A non-JSON body is not modelled either.
- CameraRoutes.Database.CreateCamera: `loc_id` is taken to be an integer. A string key that the ORM would coerce is not modelled.
- CameraRoutes.Database.GetAllCameras: the `page` and `per_page` parameters the dashboard sends are ignored. The source ignores them too.
- UserRoutes.AdminRequired: the JWT signature and expiry checks of `jwt_required` are not modelled, and neither is an exception raised by the wrapped handler (which also gives 500).
- UserRoutes.AdminRequired: the model's `int` accepts an optional sign followed by decimal digits. Python also accepts surrounding whitespace, underscores between digits, and non-ASCII Unicode decimal digits.
- UserRoutes.Login: bcrypt is the parameter `checkpw`. The access token itself is represented by the identity it carries.
- UserRoutes.Login: `bcrypt.checkpw` raises on a malformed stored hash, which Flask turns into a 500. The model treats `checkpw` as total.
- UserRoutes: the logout route and the commented-out change-password route are not modelled. The 500 reply of `get_all_users` is not modelled either.
- CameraSocketHook: the socket connection, its URL, its transports, `connect_error` and the cleanup on unmount are left out. JavaScript object keys are strings, so `cam_id` is modelled as an integer key.
- CameraGrid: the fetch, its error messages, the loading flag and the rendering are left out.
- CameraGrid.NextPage, CameraGrid.NextDisabled: the model assumes a paging backend that returns `total_pages` as an integer. The `/api/cameras` route of this repository (backend/routes/camera_routes.py:32) returns only `status` and `cameras`, so in the program as written `totalPages` is `undefined`, Next stays enabled, and pressing it sets the page to `NaN`.
- UserEditModal: `handleChange` and the API call behind `onSave` are left out. The model covers only the message shown when that call fails.
- UserEditModal.HandleFormSubmit, AccountSettings.ValidationError: `.length` counts UTF-16 code units. The model counts characters.
- AccountSettings: the profile loading effect and the rendering are left out.
- AccountSettings.ResultMessage, AccountSettings.AccountSettingsForm.HandleSubmit: the model assumes a working `changePassword` that resolves to `{status, message}` or throws. In this repository it does not exist. AccountSettingsForm.jsx:4 imports `changePassword` and `fetchApi` from `../services/apiService`, but src/services/apiService.js exports only `loginUser`, `fetchReportsData`, `fetchCameraList` and `fetchTodayEventLogs`. The backend's change-password route is commented out (backend/routes/user_routes.py:87-92). As written, the import does not resolve, and at best every submit that passes the checks ends in the thrown-error branch.
- AccountSettings.JsText: a missing `message` prints as 'undefined', and a null one as 'null'. Only the missing case is modelled.
