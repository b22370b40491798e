# ctapipe angular frames and pipeline drawer, in Dafny

This project models two parts of ctapipe, the Cherenkov Telescope Array
pipeline framework.

**Angular coordinate frames** (`ctapipe/coordinates/angular_frames.py`). A
direction on the sky can be written in four frames:

- the horizon (alt/az) frame;
- the telescope frame, an angular offset from one telescope's pointing;
- the nominal frame, an angular offset from the array's reference point;
- the camera frame, metres in the focal plane.

The model covers the frame records, the two numeric kernels
`altaz_to_offset` and `offset_to_altaz`, and the eight transforms between
the frames. The files are:

- `trig.dfy`: the elementary functions, kept uninterpreted. `Trig.Laws` lists
  the few identities the proofs use (cos is even, sin is odd, cos² + sin² = 1,
  and the values at 0). `Trig.LawsAreSatisfiable` shows the laws are
  consistent.
- `units.dfy`: angles with a unit (rad or deg), and arrays of them that are
  either a scalar or one-dimensional, with astropy's `to` conversion.
- `angular_kernels.dfy`: `altaz_to_offset` as a function. `offset_to_altaz`
  is a method over arrays, like numpy's in-place version: it finds the zero
  offsets, puts in 1e-14, applies the general formula and then writes the
  reference direction back. The method is proved equal to the
  specification function `OffsetsToAltaz`.
- `angular_frames.dfy`: the frames and coordinates, and the transforms. A
  transform returns `Err(MissingAttribute(..))` for the first frame
  attribute it reads that is not set. In the source that is the `None.alt`
  failure.

**Pipeline drawer** (`ctapipe/pipeline/zmqpipe/drawer/pipelinedrawer.py`).
The monitor widget keeps three things and updates them from the messages
the running pipeline publishes:

- a list of `StagerRep` objects;
- the time of the last configuration;
- a map from router to queue.

It draws the steps as a directed graph. `pipeline_drawer.dfy` models
`StagerRep` and the drawer as classes:

- `StepChange` updates the first step with the reported base name in
  place.
- `PipeChange` dispatches on the topic.
- `BuildGraph` builds the nodes and edges.
- `GetStepByName` searches the list.

The value-level function `Transition` describes what `PipeChange` does to
the whole state, and the lemmas are stated about it.

`Wrappers` (`wrappers.dfy`) holds `Option` and `Result`.

## Model

| member | source | states |
|---|---|---|
| AngularKernels.AltazToOffsetAtReference | ctapipe/coordinates/angular_frames.py:134-177 | a target at the reference direction projects to the offset origin (0, 0) |
| AngularKernels.ReferenceIsLocalZenith | ctapipe/coordinates/angular_frames.py:157-169 | in the axes of the reference, the reference direction is the unit vector (0, 0, 1) |
| AngularKernels.AltazToOffsets | ctapipe/coordinates/angular_frames.py:134-177 | offsets come back in radians, with the shape of the target azimuths |
| AngularKernels.AltazToOffsetsAtReference | ctapipe/coordinates/angular_frames.py:134-177 | every target at the reference direction, in any unit, gets offset zero |
| AngularKernels.OffsetsToAltaz | ctapipe/coordinates/angular_frames.py:180-251 | altitude and azimuth both come back in the unit of the reference azimuth, with the shape of the offsets |
| AngularKernels.OriginHasZeroNorm | ctapipe/coordinates/angular_frames.py:209-210 | the offset origin has norm exactly zero, so it takes the zero-offset branch |
| AngularKernels.ZeroOffsetGivesReference | ctapipe/coordinates/angular_frames.py:209-241 | an element with zero offset returns the reference altitude (in the azimuth's unit) and the reference azimuth |
| AngularKernels.NonzeroOffsetUsesGeneralFormula | ctapipe/coordinates/angular_frames.py:218-233 | every other element is the general formula at its own offset, converted to the azimuth's unit |
| AngularKernels.ArrayAgreesWithScalars | ctapipe/coordinates/angular_frames.py:212-241 | element i of an array call equals the scalar call on element i |
| AngularKernels.AzimuthIsNotWrapped | ctapipe/coordinates/angular_frames.py:233-251 | the returned azimuth is not reduced to [0, 2π): a reference azimuth of 7 rad comes back as 7 rad |
| AngularKernels.ZeroPositions | ctapipe/coordinates/angular_frames.py:210 | the positions returned are exactly the indices of the zero offsets, in increasing order |
| AngularKernels.AssignAt | ctapipe/coordinates/angular_frames.py:216 | the listed positions get the value and every other element keeps its old value |
| AngularKernels.AssignAtZeros | ctapipe/coordinates/angular_frames.py:212-216 | the scalar and array branches both set exactly the zero positions |
| AngularKernels.GeneralDirections | ctapipe/coordinates/angular_frames.py:218-233 | two fresh arrays that hold the general formula for each element |
| AngularKernels.ConvertedDirections | ctapipe/coordinates/angular_frames.py:243-251 | per-element radian directions, converted to the azimuth's unit, are `OffsetsToAltaz` |
| AngularKernels.OffsetToAltaz | ctapipe/coordinates/angular_frames.py:180-251 | the in-place array algorithm returns exactly `OffsetsToAltaz` of its inputs |
| AngularFrames.HorizonToTelescope | ctapipe/coordinates/angular_frames.py:254-284 | fails exactly when the destination frame has no telescope pointing; otherwise a valid coordinate in that frame, in radians, of the input's shape |
| AngularFrames.TelescopeToHorizon | ctapipe/coordinates/angular_frames.py:287-313 | fails exactly when the source frame has no pointing; otherwise the result is in the pointing azimuth's unit, in the destination frame |
| AngularFrames.PointingMapsToTelescopeOrigin | ctapipe/coordinates/angular_frames.py:254-284 | targets at the telescope pointing map to the telescope-frame origin |
| AngularFrames.TelescopeOriginMapsToPointing | ctapipe/coordinates/angular_frames.py:287-313 | the telescope-frame origin maps to the pointing altitude and azimuth |
| AngularFrames.OffsetOriginMapsToReference | ctapipe/coordinates/angular_frames.py:209-241 | all-zero offsets map to the reference direction, element by element |
| AngularFrames.NominalToAltaz | ctapipe/coordinates/angular_frames.py:319-348 | fails exactly when the source frame has no reference point; otherwise in the reference azimuth's unit, in the destination frame |
| AngularFrames.AltazToNominal | ctapipe/coordinates/angular_frames.py:351-375 | fails exactly when the destination frame has no reference point; otherwise radians, of the input's shape |
| AngularFrames.NominalOriginMapsToReferencePoint | ctapipe/coordinates/angular_frames.py:319-348 | the nominal-frame origin maps to the reference point |
| AngularFrames.ReferencePointMapsToNominalOrigin | ctapipe/coordinates/angular_frames.py:351-375 | targets at the reference point map to the nominal-frame origin |
| AngularFrames.TelescopeToNominal | ctapipe/coordinates/angular_frames.py:381-412 | fails exactly when either attribute is unset, and reports the telescope pointing exactly when that one is unset; otherwise radians, in the destination frame |
| AngularFrames.TelescopeToNominalViaHorizon | ctapipe/coordinates/angular_frames.py:381-412 | telescope to nominal equals telescope to horizon followed by horizon to nominal, errors included, for any intermediate horizon frame |
| AngularFrames.NominalToTelescope | ctapipe/coordinates/angular_frames.py:415-451 | fails exactly when either attribute is unset; the telescope pointing is reported first; the offsets come back in the unit of the source x |
| AngularFrames.NominalToTelescopeViaHorizon | ctapipe/coordinates/angular_frames.py:415-451 | with both attributes set, the result is nominal to horizon followed by horizon to telescope, re-expressed in the unit of x |
| AngularFrames.NominalToTelescopeFailsOnPointingFirst | ctapipe/coordinates/angular_frames.py:432-433 | with neither attribute set, the direct route reports the telescope pointing and the route through the horizon frame reports the reference point |
| AngularFrames.AlignedCentresCoincide | ctapipe/coordinates/angular_frames.py:381-412 | when the pointing equals the reference point, the telescope origin maps to the nominal origin |
| AngularFrames.RotateThenUnrotate | ctapipe/coordinates/angular_frames.py:473-479 | rotating by rot and then by -rot is the identity, including the unrotated shortcut |
| AngularFrames.RotateScaled | ctapipe/coordinates/angular_frames.py:473-484 | rotation commutes with scaling both coordinates |
| AngularFrames.CameraPointRoundTrip | ctapipe/coordinates/angular_frames.py:455-531 | with the same rotation and non-zero focal length, the telescope-to-camera point map undoes the camera-to-telescope point map |
| AngularFrames.TelescopePointRoundTrip | ctapipe/coordinates/angular_frames.py:455-531 | the same, in the other order |
| AngularFrames.CameraToTelescope | ctapipe/coordinates/angular_frames.py:455-487 | every point is its rotated focal-plane position divided by the source frame's focal length, in radians, in the destination frame |
| AngularFrames.UnrotatedCameraScales | ctapipe/coordinates/angular_frames.py:474-484 | with zero rotation, a point maps to exactly (x / f, y / f) |
| AngularFrames.TelescopeToCamera | ctapipe/coordinates/angular_frames.py:490-531 | every offset in radians is rotated by the negated destination rotation and multiplied by its focal length; z is 0 everywhere |
| AngularFrames.CameraRoundTrip | ctapipe/coordinates/angular_frames.py:455-531 | camera to telescope and back, with the same rotation and focal length, gives back the focal-plane x and y |
| AngularFrames.TelescopeRoundTrip | ctapipe/coordinates/angular_frames.py:455-531 | telescope to camera and back gives back the offsets, in radians |
| Units.ToRad | ctapipe/coordinates/angular_frames.py:204-207 | converting to radians maps zero, and only zero, to zero |
| Units.FromRad | ctapipe/coordinates/angular_frames.py:251 | converting back from radians inverts `ToRad` |
| Units.ConvertTo | ctapipe/coordinates/angular_frames.py:446-449 | the converted array holds the same angles, in the new unit, with the same shape |
| Units.ConvertToOwnUnit | ctapipe/coordinates/angular_frames.py:446-449 | converting into the array's own unit changes nothing |
| PipelineDrawer.StagerRep.constructor | ctapipe/pipeline/zmqpipe/drawer/pipelinedrawer.py:31-35 | the new step holds the given name, next steps, running flag and job count, with the defaults [], False and 0 |
| PipelineDrawer.BeforeSeparator | ctapipe/pipeline/zmqpipe/drawer/pipelinedrawer.py:155 | `split(sep)[0]`: a prefix containing no occurrence of sep, which ends at the first occurrence or at the end |
| PipelineDrawer.PlainNameIsItsOwnBase | ctapipe/pipeline/zmqpipe/drawer/pipelinedrawer.py:155 | a name without the thread marker is its own base name |
| PipelineDrawer.ThreadedNameBase | ctapipe/pipeline/zmqpipe/drawer/pipelinedrawer.py:155 | a threaded name `base$$thread…` has base name `base` |
| PipelineDrawer.FindFirst | ctapipe/pipeline/zmqpipe/drawer/pipelinedrawer.py:196-199 | None exactly when the name is absent; otherwise the index of its first occurrence |
| PipelineDrawer.FindFirstAt | ctapipe/pipeline/zmqpipe/drawer/pipelinedrawer.py:196-199 | an index holding the name with no earlier occurrence is what `FindFirst` returns |
| PipelineDrawer.UpdateFirst | ctapipe/pipeline/zmqpipe/drawer/pipelinedrawer.py:154-159 | only the first step with the name gets the new running flag and job count; every other step and field is unchanged, and so are the names |
| PipelineDrawer.EdgesOfMembership | ctapipe/pipeline/zmqpipe/drawer/pipelinedrawer.py:184-187 | an edge is drawn exactly when its tail is a step and its head is one of that step's next steps |
| PipelineDrawer.EdgesOfCount | ctapipe/pipeline/zmqpipe/drawer/pipelinedrawer.py:184-187 | one edge per next step: the edge count is the total number of next steps |
| PipelineDrawer.Transition | ctapipe/pipeline/zmqpipe/drawer/pipelinedrawer.py:108-171 | per topic: a configuration replaces the steps only when its time differs; a step report updates the first step with the base name; a router report sets that queue and keeps every other one; other topics change nothing |
| PipelineDrawer.SameConfigTimeIsIgnored | ctapipe/pipeline/zmqpipe/drawer/pipelinedrawer.py:125-129 | a configuration with the current time changes nothing |
| PipelineDrawer.ConfigIsIdempotent | ctapipe/pipeline/zmqpipe/drawer/pipelinedrawer.py:125-129 | sending the same configuration twice has the effect of sending it once |
| PipelineDrawer.UnknownStepIsIgnored | ctapipe/pipeline/zmqpipe/drawer/pipelinedrawer.py:153-159 | a report whose base name matches no step changes nothing |
| PipelineDrawer.StepReportKeepsNames | ctapipe/pipeline/zmqpipe/drawer/pipelinedrawer.py:153-159 | step reports keep the step names in order |
| PipelineDrawer.StepChangeEffect | ctapipe/pipeline/zmqpipe/drawer/pipelinedrawer.py:154-159 | the first-match loop with break updates only the objects equal to the first match, which is `UpdateFirst` when no object is listed twice |
| PipelineDrawer.Drawer.constructor | ctapipe/pipeline/zmqpipe/drawer/pipelinedrawer.py:62-72 | a new drawer has an empty step list, configuration time 0 and no queues |
| PipelineDrawer.Drawer.StepChange | ctapipe/pipeline/zmqpipe/drawer/pipelinedrawer.py:144-159 | in place, the first step with the reported base name takes the new running flag and job count, and nothing else changes |
| PipelineDrawer.Drawer.RouterChange | ctapipe/pipeline/zmqpipe/drawer/pipelinedrawer.py:161-171 | the queue map gets the router's queue; steps and configuration time are unchanged |
| PipelineDrawer.Drawer.GetStepByName | ctapipe/pipeline/zmqpipe/drawer/pipelinedrawer.py:191-199 | returns the first step with exactly that name, or None when there is none |
| PipelineDrawer.Drawer.BuildNodes | ctapipe/pipeline/zmqpipe/drawer/pipelinedrawer.py:178-182 | one node per step, in order, filled exactly when the step is running |
| PipelineDrawer.Drawer.BuildStepEdges | ctapipe/pipeline/zmqpipe/drawer/pipelinedrawer.py:185-187 | fails exactly when some next step names no step; otherwise one edge to each next step, in order |
| PipelineDrawer.Drawer.BuildGraph | ctapipe/pipeline/zmqpipe/drawer/pipelinedrawer.py:173-189 | a graph exactly when every next step resolves, with one node per step and the edges `EdgesOf` of the steps |
| PipelineDrawer.Drawer.PipeChange | ctapipe/pipeline/zmqpipe/drawer/pipelinedrawer.py:108-142 | in place, the update the topic selects and nothing else; the new state is `Transition` of the old state and the message |

## Left out

- Floating point: all arithmetic is on reals, and numpy's double rounding is not modelled.
- Trigonometry: sin, cos, tan, arctan, arcsin, arccos, arctan2 and sqrt are uninterpreted. Only the identities in `Trig.Laws` are used.
- astropy's frame machinery: the transform graph, `realize_frame`, representation classes, and the `HorizonFrame` base class `AltAz` with its refraction attributes. A transform is a plain function of the coordinate and the destination frame.
- astropy `Longitude`/`Latitude` wrapping and range checks when a horizon coordinate is realised. The model returns the unwrapped azimuth of `offset_to_altaz`.
- `obstime` and `location` are carried in the frame records but never used, as in the transforms.
- Broadcasting and multi-dimensional arrays: a coordinate is a scalar or a one-dimensional array, and its two components must have the same shape (`Valid`).
- Angle units other than radians and degrees, and length units other than metres.
- AngularFrames.CameraToTelescope: requires a non-zero focal length. numpy's division by zero would return infinities, and reals have none.
- AngularFrames.TelescopeToCamera: rotates after converting the offsets to radians, where the source rotates first. The two agree because rotation is linear.
- Qt painting is left out: `paintEvent`, `initUI`, `update()`, the zoom, the point size, the status bar, the colours and the graphviz rendering to PNG. They draw the state but never change it.
- `StagerRep.__repr__` and `get_name_and_queue` are left out. They only format text, and the second reads a field the class never sets.
- The shared mutable default `next_steps=list()` of `StagerRep.__init__` is left out. The model's default is a fresh empty sequence.
- Topics are strings rather than byte strings.
- Message-shape errors are out of scope. A message that does not unpack as its topic requires is excluded by `PipeChange`'s requires, where the source would raise an error.
- PipelineDrawer.Drawer.GetStepByName: requires a step list. With no list, the source's loop over `None` raises an error.
- PipelineDrawer.Drawer.BuildGraph: requires a step list, as `GetStepByName` does. A next step that names no step gives `None` here; in the source it raises an attribute error on `None.name`.
- PipelineDrawer.Drawer.StepChange: the value-level equation with `UpdateFirst` is stated only when no step object is listed twice. The object-level clause `FirstMatchUpdated` covers aliasing.
- PipelineDrawer.Drawer.PipeChange: the `Transition` equation is also conditional on distinct step objects, for the same reason.
- `ctapipe/core/tool.py` is not part of this model.
