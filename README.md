# vjoy: device state encoding and acquisition

This project models the core of the Go package `github.com/tajtiattila/vjoy`, a
wrapper around the vJoy virtual-joystick driver. An application acquires a
device, gets axis, button and hat handles from it, writes values through them
into one `JOYSTICK_POSITION` record, and submits that record to the driver
whole.

The model covers:

- the record layout, the driver's status codes and its HID usage codes (`dll.dfy`);
- Go's integer semantics where the package relies on them: `int`
  wrap-around (with `int` taken as 64 bits wide), truncating `/` and `%`, `uint32(x)` and `byte(x)` (`go_int.dfy`);
- the pure part of the package (`controls.dfy`):
  - `axisNumber`;
  - the axis-setter arithmetic;
  - the index-to-word computations of `button(i)` and `hat(i)`;
  - the values and words the hat setters compute;
- the stateful part (`device.dfy`):
  - the handles and their setters;
  - `Device.Reset`, `Device.Update` and the `Axis`/`Button`/`Hat` accessors;
  - `Device.init`, with its status/acquire decision and its capability-discovery loops;
  - `Acquire`.

The modelling choices:

- The record is a class, `Dll.JoystickPosition`, whose fields the setters
  write in place.
- A handle does not hold a Go pointer. It holds the `Device` and a target:
  either a named field of the record, or one of the two sink words `noi` and
  `nou`.
- Each setter is stated against `Vjoy.Cells`, the value of every cell a
  handle can write.
- The vJoy driver is an oracle. A `Vjoy.Driver` value fixes the answer to
  every query made during one `Acquire`: status, acquire result, axis
  existence, axis minimum and maximum, the three counts, and the update
  result.
- A ghost trace `calls` on the device records the driver calls in order.
  This lets the contracts state which queries are made, and when.

The model follows the code as written, including behaviour that looks unintended:

- `Reset` clears only the first button word, `Buttons`. `ButtonsEx1..3` keep
  their bits.
- The continuous-hat loop starts again at index 0. Continuous hat `i`
  therefore writes the same word and half-word as discrete hat `i`.
- Every hat setter ANDs the old word with its own mask and ORs in the new
  value. The hat's own bits below the mask survive, and the neighbouring hat's
  half is cleared. A low-half store of a value of 16 bits or more also spills
  into the high half. After `Reset` (all ones), a discrete `SetDiscrete` with a
  direction leaves the half at `0xf` whatever the direction.
- Status FREE followed by a failed acquire call makes `init` return a nil
  error. `Acquire` then returns a device with no handles, after resetting it
  and updating it once.
- Negative hat values pass through `uint32(val)`, which is two's complement
  modulo 2^32, before the shift.
- The device byte is `byte(rid)`, which is `rid % 256`.

Some behaviour of the code is easy to misread. The model states it as the code has it:

- `Reset`'s doc comment (vjoy.go:240) says "Axes centered, Buttons and Hats
  off", but only the first button word, `Buttons`, is cleared (vjoy.go:261).
- A missing axis gets no sink. `init` builds all eight axis handles, each
  pointing at its own record field, with `exists == false` when the driver
  lacks the axis (vjoy.go:333-361). Only the invalid axis, which `Axis(n)`
  returns for a name outside 0..7, points at `noi`.
- `init` builds exactly as many button handles as the driver reports
  (vjoy.go:363-371), and `Button(n)` returns the invalid button for any other
  `n` (vjoy.go:280-285). A handle inside the list is the invalid button only
  when its index reaches 128.
- Discrete and continuous hats are numbered from 0 separately, and both loops
  compute their slot with the same `hat(i)` (vjoy.go:373-387). One index can
  therefore be both kinds, and two handles then write one slot.
- `Acquire` returns a non-nil device whenever `init` returns nil
  (vjoy.go:226-232). That includes the FREE case with a failed acquire call.

## Model

| member | source | states |
|---|---|---|
| Dll.DeclaredOnce | dll/dll.go:32-60 | the record has 27 fields in the order Device, Throttle..AxisVBRZ, Buttons, Hats, HatsEx1..3, ButtonsEx1..3, none declared twice |
| Dll.DeclaredComplete | dll/dll.go:32-60 | every field of the record appears in the declaration order, at the position its ordinal names |
| Dll.AxisOrdinalInjective | dll/dll.go:34-51 | the 18 axis fields occupy 18 distinct slots |
| Dll.Ordinal | dll/dll.go:32-60 | a field's position in the record's declaration; Dll.DeclaredOnce and Dll.DeclaredComplete show it matches the declared table |
| Dll.AxisOrdinal | dll/dll.go:34-51 | an axis field's position among the 18 axis fields, below 18; distinct fields get distinct positions by Dll.AxisOrdinalInjective |
| Dll.LayoutFollowsDeclared | dll/dll.go:32-60 | the record value's components follow the declared field order: the component at a field's position is the value the accessors read for that field |
| Dll.Position.WithAxis | dll/dll.go:34-51 | storing into one axis field changes that field only: other axes, button words, hat words and device byte are kept |
| Dll.Position.WithButton | dll/dll.go:52-59 | storing into one button word changes that word only |
| Dll.Position.WithHat | dll/dll.go:53-56 | storing into one hat word changes that word only |
| Dll.Position.WithDevice | dll/dll.go:33 | setting the device byte keeps the axes, button words and hat words |
| Dll.JoystickPosition.constructor | vjoy.go:225 | a new record is Go's zero value in every field |
| Dll.JoystickPosition.SetAxis | vjoy.go:95 | a write through an axis field pointer changes the record exactly as WithAxis says |
| Dll.JoystickPosition.SetButton | vjoy.go:138-144 | a write through a button word pointer changes the record exactly as WithButton says |
| Dll.JoystickPosition.SetHat | vjoy.go:178 | a write through a hat word pointer changes the record exactly as WithHat says |
| GoInt.Wrap | vjoy.go:96 | Go's wrapping int result differs from the exact result by a multiple of 2^64, and equals it when it fits |
| GoInt.Quo | vjoy.go:203 | Go's `/` by a positive divisor truncates toward zero: the remainder has the dividend's sign and is smaller than the divisor |
| GoInt.Rem | vjoy.go:203 | Go's `%` by a positive divisor takes the dividend's sign, is smaller than the divisor in magnitude, and differs from the dividend by a multiple of the divisor, which together fix its value |
| GoInt.ToByte | vjoy.go:310 | `byte(rid)` is rid modulo 256 |
| GoInt.Uint32 | vjoy.go:178 | `uint32(x)` is x modulo 2^32 as a 32-bit pattern, the two's complement low 32 bits for negative x; its use is stated by Controls.Uint32Off and Controls.Uint32Direction |
| GoInt.QuoRemNonNegative | vjoy.go:203 | on non-negative operands Go's `/` and `%` agree with the mathematical ones |
| GoInt.WrapMod8000 | vjoy.go:95-96 | wrap-around of the subtraction in Seti is invisible after `& 0x7fff` |
| GoInt.WrapUint32 | vjoy.go:176-178 | wrap-around of the multiplication in continuousHat.SetDiscrete is invisible after `uint32(...)` |
| Controls.AxisNumber | vjoy.go:65-85 | the eight axis names get the distinct consecutive HID codes 0x30..0x37 in name order; every other value gets 0 |
| Controls.AxisFieldOf | vjoy.go:337-356 | exactly the eight names get a record field, name i the field with ordinal 3+i (AxisX..Dial), so no two names share one |
| Controls.Masked | vjoy.go:95 | Setu stores a value in 0..0x7fff congruent to its argument modulo 0x8000 |
| Controls.Centred | vjoy.go:96 | Seti's argument to Setu, `val - 0x4000` in Go's wrapping int; what it stores is stated by Controls.SetiStores |
| Controls.Clamped | vjoy.go:99-105 | Setc's argument to Setu is in 0..0x7fff and is the point of that range nearest val |
| Controls.SetiStores | vjoy.go:96 | Seti stores val+0x4000 modulo 0x8000, that is val+0x4000 exactly for val in -0x4000..0x3fff |
| Controls.SetiReferencePoints | vjoy.go:96 | Seti(0) stores 0x4000, Seti(-0x4000) stores 0 and Seti(0x3fff) stores 0x7fff |
| Controls.SetcStores | vjoy.go:99-107 | Setc stores 0 below the range, 0x7fff above it and val itself inside it |
| Controls.ButtonWordOf | vjoy.go:392-402 | button i gets word i/32 (Buttons, Ex1, Ex2, Ex3), and there is no word exactly when i >= 128 |
| Controls.ButtonMask | vjoy.go:403 | button i's mask `1 << uint(i%32)`; its bits are stated by Controls.ButtonMasksDistinct and Controls.Buttons31And32 |
| Controls.ButtonApply | vjoy.go:138-144 | Set's new word: the mask ORed in for true, ANDed out for false; stated bit by bit by Controls.ButtonApplyOwnBits and Controls.ButtonApplyKeeps |
| Controls.ButtonApplyOwnBits | vjoy.go:138-144 | after Set(true) every bit of the mask is set, after Set(false) every bit of it is clear |
| Controls.ButtonApplyKeeps | vjoy.go:138-144 | Set leaves every bit outside the mask as it was |
| Controls.ButtonMasksDistinct | vjoy.go:403 | a button's mask is non-zero, and buttons at different bit positions have disjoint masks |
| Controls.Buttons31And32 | vjoy.go:392-405 | buttons 31 and 32 land in different words: bit 31 of Buttons and bit 0 of ButtonsEx1 |
| Controls.ButtonsIndependent | vjoy.go:392-405 | setting button i leaves the bit of every other button of the same word as it was |
| Controls.ButtonApplyIdempotent | vjoy.go:138-144 | repeating Set is idempotent, and of two Sets of one button the later wins |
| Controls.ButtonApplyNoMask | vjoy.go:330 | with mask 0, the invalid button's, Set leaves the word as it was |
| Controls.HatWordOf | vjoy.go:409-418 | hat i gets word i/2, and there is no word exactly when i >= 8 |
| Controls.HatShift | vjoy.go:408 | the shift is 16 for odd i and 0 for even i |
| Controls.DegpOfState | vjoy.go:174-177 | continuous SetDiscrete's value: a positive state times 9000, others as they are; stated by Controls.DegpOfStates |
| Controls.StateOfDegp | vjoy.go:202-204 | discrete SetDegp's value: a positive angle becomes `((val + 4500) / 9000) % 4` with Go's wrapping int and truncating operators, others stay; stated by Controls.StateOfDegpRounds |
| Controls.DegpOfStates | vjoy.go:172-177 | continuous SetDiscrete sends N to 0, E to 9000, S to 18000, W to 27000 and Off to -1 |
| Controls.StateOfDegpRounds | vjoy.go:201-204 | discrete SetDegp rounds an angle v with 0 < v <= MaxInt-4500 to the nearest quarter turn modulo 4, a direction 0..3, and keeps 0 and negative values; the angles above MaxInt-4500 are covered by Controls.StateOfDegpWraps |
| Controls.StateOfDegpWraps | vjoy.go:202-204 | for an angle within 4500 of MaxInt, Go's `val + 4500` wraps negative and the stored value is -1 or -2, not a direction |
| Controls.StateOfDegpExamples | vjoy.go:201-204 | 13500 becomes S, 35999 becomes N, 4499 becomes N, 4500 becomes E and 27000 becomes W |
| Controls.StateDegpRoundTrip | vjoy.go:172-207 | a hat state converted to hundredths of a degree and rounded back is the state again |
| Controls.HatPut | vjoy.go:178 | a hat setter's new word: the old word ANDed with `m << shift`, then ORed with `u << shift`; its halves are stated by the four HatPut lemmas below |
| Controls.HatStore | vjoy.go:178 | the same store for a Go int value, converted with `uint32` first |
| Controls.SetDiscreteWord | vjoy.go:172-199 | SetDiscrete's new word: the continuous kind stores DegpOfState under mask 0xffff (vjoy.go:178), the discrete kind the state under mask 0xf (vjoy.go:198) |
| Controls.SetDegpWord | vjoy.go:181-207 | SetDegp's new word: the continuous kind stores the angle (vjoy.go:183), the discrete kind StateOfDegp of it (vjoy.go:206), both under mask 0xffff |
| Controls.ContinuousDiscreteExact | vjoy.go:175-178 | for a positive state, continuous SetDiscrete stores the word of the exact product state*9000: the int multiplication's wrap-around is invisible after `uint32` |
| Controls.HatPutHighOwn | vjoy.go:196-207 | a high-half store keeps the half's old bits under the mask and ORs in the value's low 16 bits |
| Controls.HatPutHighClears | vjoy.go:196-207 | a high-half store clears the neighbouring low half |
| Controls.HatPutLowOwn | vjoy.go:196-207 | a low-half store keeps the half's old bits under the mask and ORs in the value's low 16 bits |
| Controls.HatPutLowSpill | vjoy.go:196-207 | a low-half store sets the high half to the value's high 16 bits |
| Controls.Uint32Direction | vjoy.go:198 | `uint32` of a direction 0..3 has no bit above bit 3 |
| Controls.ResetHatSticks | vjoy.go:172-199 | from an all-ones word, SetDiscrete with a direction leaves the hat's half at 0xf (discrete) or 0xffff (continuous) |
| Controls.NibbleSticks | vjoy.go:196-199 | an all-ones word stored into with mask 0xf and a value below 16 keeps its half at 0xf |
| Controls.HalfSticks | vjoy.go:172-184 | an all-ones word stored into with mask 0xffff keeps its half at 0xffff |
| Controls.Uint32Off | vjoy.go:153 | `uint32(HatOff)` has every bit set |
| Controls.HatOffWord | vjoy.go:172-199 | SetDiscrete(HatOff) turns a low-half hat's word to 0xffffffff and a high-half hat's word to 0xffff0000 |
| Controls.OffPut | vjoy.go:178 | storing all ones with either mask gives 0xffffffff on the low half and 0xffff0000 on the high half |
| Vjoy.Axis.Setu | vjoy.go:95 | the handle's cell, and no other, receives `int32(val & 0x7fff)` |
| Vjoy.Axis.Seti | vjoy.go:96 | the handle's cell receives val+0x4000 modulo 0x8000 |
| Vjoy.Axis.Setc | vjoy.go:99-107 | the handle's cell receives val clamped to 0..0x7fff |
| Vjoy.Axis.Exists | vjoy.go:93 | Exists reports the flag init set from GetVJDAxisExist, by Vjoy.AxisHandleFields, and false for the invalid axis |
| Vjoy.Device.PutButton | vjoy.go:140-142 | a store through a button handle's pointer changes its word, or noi for the invalid button, and no other cell |
| Vjoy.Button.Set | vjoy.go:138-144 | the handle's word is read, the mask ORed in or ANDed out, and the word written back; no other cell changes |
| Vjoy.Button.Exists | vjoy.go:134-136 | Exists reports whether the button has a word, true exactly below index 128 by Vjoy.ButtonHandle, and false for the invalid button |
| Vjoy.Device.ButtonValue | vjoy.go:140-142 | the read of a button handle's pointer gives its word of the record, or noi for the invalid button |
| Vjoy.Hat.SetDiscrete | vjoy.go:172-199 | the hat word receives the kind's store of the state: for a continuous hat, a positive state times 9000 (others as they are) with mask 0xffff; for a discrete hat, the state itself with mask 0xf |
| Vjoy.Hat.SetDegp | vjoy.go:181-207 | the hat word receives the angle (continuous) or its direction (discrete), with mask 0xffff |
| Vjoy.Hat.Exists | vjoy.go:168-194 | Exists of both hat kinds reports true for every hat init appends, by Vjoy.HatHandle, and false for the invalid hat |
| Vjoy.Device.HatValue | vjoy.go:178 | the read of a hat handle's pointer gives its word of the record, or nou for the invalid hat |
| Vjoy.Device.PutHat | vjoy.go:178 | a store through a hat handle's pointer changes its word, or nou for the invalid hat, and no other cell |
| Vjoy.ResetPosition | vjoy.go:241-267 | after Reset every axis is 0x4000, Buttons is 0, every hat word is 0xffffffff, and ButtonsEx1..3 and the device byte are kept |
| Vjoy.Device.Reset | vjoy.go:241-267 | Reset changes the record exactly as ResetPosition says |
| Vjoy.ResetIdempotent | vjoy.go:241-267 | Reset twice is Reset once |
| Vjoy.Device.constructor | vjoy.go:225 | a new device has a zero record, zero sinks, no handles and no driver calls |
| Vjoy.SinkAxis | vjoy.go:329 | the invalid axis writes noi and does not exist; a store through it changes only noi, by Vjoy.AxisStoreFrame |
| Vjoy.SinkButton | vjoy.go:330 | the invalid button writes noi with mask 0 and does not exist; Set on it changes nothing, by Vjoy.SinkButtonKeeps |
| Vjoy.SinkHat | vjoy.go:331 | the invalid hat is a discrete hat writing nou that does not exist; a store through it changes only nou, by Vjoy.HatStoreFrame |
| Vjoy.Device.Update | vjoy.go:302-307 | Update sends the current record once and returns ErrUpdate exactly when the driver refuses it |
| Vjoy.AcquiredPosition | vjoy.go:224-233 | the record Acquire sends: the zero record with device byte rid % 256, then Reset; its fields are stated by Vjoy.AcquiredPositionFields |
| Vjoy.Device.AxisAt | vjoy.go:272-277 | Axis(n): the list's handle for 0 <= n < len, the invalid axis otherwise; on an opened device stated by Vjoy.AxisAtBuilt |
| Vjoy.Device.ButtonAt | vjoy.go:280-285 | Button(n): the list's handle for 0 <= n < len, the invalid button otherwise; on an opened device stated by Vjoy.ButtonAtBuilt |
| Vjoy.Device.HatAt | vjoy.go:289-294 | the unexported Hat(n): the list's handle for 0 <= n < len, the invalid hat otherwise; on an opened device stated by Vjoy.HatAtBuilt |
| Vjoy.StatusError | vjoy.go:315-324 | the error the status switch leaves for a failed acquire: nil for FREE, ErrDeviceBusy for BUSY, ErrDeviceMissing for MISS, ErrDeviceUnknown otherwise; stated as iffs by Vjoy.InitError |
| Vjoy.Opened | vjoy.go:312-327 | init gets past the switch and the acquire call exactly when the status is not OWN and the acquire call succeeds |
| Vjoy.InitCalls | vjoy.go:312-387 | init's driver calls in order: status, then for any status but OWN the acquire call, then on success the axis queries and the three counts; stated by Vjoy.InitCallsOrder and Vjoy.OpenedQueriesAxes |
| Vjoy.HandleCalls | vjoy.go:333-387 | the calls after a successful acquire: the axis loop's queries, then the button, discrete-hat and continuous-hat counts |
| Vjoy.Built | vjoy.go:329-387 | what init leaves once opened: the three invalid handles at the sinks, the eight axis handles, and the button and hat handles appended to the old lists |
| Vjoy.InitError | vjoy.go:312-327 | init's result: AlreadyOwned exactly for OWN; nil exactly when not OWN and the acquire call succeeds or the status is FREE; Busy, Missing and Unknown exactly for a failed acquire after BUSY, MISS and any other status |
| Vjoy.Device.Init | vjoy.go:309-390 | init sets the device byte to rid % 256, returns InitError, and makes the calls InitCalls lists; once opened it has built the invalid handles and the handle lists, otherwise no handle changes |
| Vjoy.Device.OpenHandles | vjoy.go:329-387 | after acquisition the invalid handles are the sinks, the eight axis handles are built, and button and hat handles are appended |
| Vjoy.Device.BuildAxes | vjoy.go:333-362 | the axis loop builds the handles of the eight names and queries min and max only for existing axes |
| Vjoy.Device.BuildAxis | vjoy.go:335-361 | one pass of the axis loop builds AxisHandle(i) and makes the calls AxisCallsOf(i) |
| Vjoy.Count | vjoy.go:364 | a `for i := 0; i < n; i++` loop runs max(n, 0) times |
| Vjoy.AxisTargetOf | vjoy.go:337-356 | where axis name i's handle points: the record field of Controls.AxisFieldOf, or noi for a name outside 0..7 |
| Vjoy.AxisHandle | vjoy.go:335-361 | the handle one pass of the axis loop builds: its field, the existence flag, and min and max only when the axis exists; stated by Vjoy.AxisHandleFields |
| Vjoy.AxisHandles | vjoy.go:333-362 | the handles of the first k axis names in order; stated by Vjoy.AxisHandlesShape |
| Vjoy.AxisCallsOf | vjoy.go:335-360 | one pass's driver calls: the existence query, then min and max when the axis exists |
| Vjoy.AxisCalls | vjoy.go:333-362 | the axis loop's calls for the first k names in order; stated by Vjoy.AxisCallsQueries, Vjoy.AxisCallsNoUpdate and Vjoy.AxisCallsNoAcquire |
| Vjoy.Device.BuildButtons | vjoy.go:363-371 | the button loop appends one handle per reported button, the invalid button for indices without a word |
| Vjoy.Device.BuildHats | vjoy.go:373-387 | a hat loop appends one handle of its kind for each index below the count that has a word |
| Vjoy.ButtonHandle | vjoy.go:365-370 | button i's handle exists exactly for i < 128, then writes word i/32 under mask 1<<(i%32); otherwise it is the invalid button |
| Vjoy.ButtonHandles | vjoy.go:363-371 | the handles the button loop appends for a count of k, in order; stated by Vjoy.ButtonHandlesShape |
| Vjoy.HatHandle | vjoy.go:375-378 | hat i yields one handle exactly for i < 8, writing word i/2 at shift (i%2)*16, and none otherwise |
| Vjoy.HatHandles | vjoy.go:373-387 | the handles one hat loop appends for a count of k; stated by Vjoy.HatHandlesShape |
| Vjoy.AxisHandlesShape | vjoy.go:333-362 | exactly k axis handles are built for the first k names, handle i for name i |
| Vjoy.AxisHandleFields | vjoy.go:335-360 | axis handle i writes the field with ordinal 3+i (distinct for distinct names), exists exactly when the driver reports usage 0x30+i, and has min and max 0 when it does not exist |
| Vjoy.AxisCallsQueries | vjoy.go:335-360 | the axis loop queries existence for exactly the usage codes of the names visited, and min and max for exactly those that exist |
| Vjoy.AxisCallsNoUpdate | vjoy.go:333-362 | the axis loop never sends the record |
| Vjoy.AxisCallsNoAcquire | vjoy.go:333-362 | the axis loop never calls the acquire entry point |
| Vjoy.ButtonHandlesShape | vjoy.go:363-371 | exactly k button handles are built for a count of k, handle i for button i |
| Vjoy.HatHandlesShape | vjoy.go:373-387 | a hat loop with count k builds min(k, 8) handles, handle i for hat i: indices without a word are skipped, not replaced |
| Vjoy.ContinuousAliasesDiscrete | vjoy.go:373-387 | continuous hat i has the same word and shift as discrete hat i |
| Vjoy.AxisAtBuilt | vjoy.go:272-277 | on an opened device Axis(n) is the handle of name n for the eight names and the invalid axis otherwise |
| Vjoy.ButtonAtBuilt | vjoy.go:280-285 | on an opened device Button(n) is button n's handle below the reported count and the invalid button otherwise |
| Vjoy.HatAtBuilt | vjoy.go:289-294 | on an opened device the hat list holds min(d,8) discrete then min(c,8) continuous handles, and any other index gives the invalid hat |
| Vjoy.SinkButtonKeeps | vjoy.go:330 | Set on the invalid button leaves every cell as it was |
| Vjoy.AxisStoreFrame | vjoy.go:95 | a store through an axis handle changes only its one field, or only noi |
| Vjoy.ButtonStoreFrame | vjoy.go:138-144 | a store through a button handle changes only its word, or only noi |
| Vjoy.HatStoreFrame | vjoy.go:178 | a store through a hat handle changes only its word, or only nou |
| Vjoy.InitCallsOrder | vjoy.go:309-327 | the status query comes first; for OWN nothing follows, in particular no acquire call; otherwise the acquire call is second; init never sends the record |
| Vjoy.OpenedQueriesAxes | vjoy.go:333-362 | an opened device's init queries existence for exactly the codes 0x30..0x37, and min for exactly those that exist |
| Vjoy.AcquiredPositionFields | vjoy.go:224-233 | the record Acquire sends has device byte rid % 256, every axis at 0x4000, every button word 0 and every hat word all ones |
| Vjoy.AcquireUpdatesOnce | vjoy.go:224-233 | Acquire's trace holds exactly one UpdateVJD, its last call |
| Vjoy.Acquire | vjoy.go:224-233 | Acquire returns init's error and a device exactly when that error is nil; the device and its record are fresh, so no two devices share a record; the device holds the reset record, has been updated exactly once after init's calls whatever the update result, and has its handles built exactly when the acquire call succeeded |
| Vjoy.AcquireAndMoveX | vjoy.go:224-233 | a client's acquire, Setc on the X axis and Update: on an opened device the submitted record is the acquired record with X at val clamped to 0..0x7fff, the device FREE with a failed acquire call keeps the acquired record, and the error is init's or Update's |

## Left out

- `Axis.Setf` and `Axis.Setuf` are not modelled: they compute with float32 and truncating float-to-int conversion.
- Loading the driver DLL, the procedure table and UTF-16 string reading are not modelled. They are OS loading and foreign memory.
- The bodies of the driver wrappers are not modelled; they are foreign calls. Their results are the fields of `Vjoy.Driver`, and `SetBtn`'s bool-to-integer conversion is never reached by the core.
- The version warning the driver package logs at load time is not modelled; it is I/O.
- `Available`, `Version`, `ProductString`, `ManufacturerString`, `SerialNumberString`, `ResetAll` and `Relinquish` are not modelled. Each is a single driver call with no logic of its own.
- `Device.Axes`, `Device.Buttons` and `not_yet_suppoerted_Hats` are not modelled separately: they return the lists the model keeps as fields.
- Vjoy.Driver: the axis minimum and maximum are taken as arbitrary driver answers. Nothing in the core checks or enforces them.
- Vjoy.Device.Update: the result of `UpdateVJD` is the parameter `accepted`. The driver's handling of the record is not modelled.
- Vjoy.Device.Reset: the 18 axis assignments become one assignment of the 18-element sequence of axis fields. The resulting record is the same.
- Handles are values holding the device and a named target, not pointers. Pointer identity is not modelled, so the sharing of one invalid button object between the invalid handle and the button list cannot be observed.
- Go's `int` is taken as 64 bits wide, as on amd64. Nothing in the package restricts the target, and on windows/386 `int` is 32 bits. The one place where this shows is discrete `SetDegp` (vjoy.go:203): `val + 4500` wraps there for val > 2^31-4501 on a 32-bit target, but only above 2^63-4501 in the model.
- The smoke test of the driver package runs against a live driver and asserts nothing, so it is not modelled.
