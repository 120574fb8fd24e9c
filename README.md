# Slot-based builder permissioning, modelled in Dafny

This project models the part of `bin-base` that decides which block builder
may act at a given moment. A chain's time is cut into slots of fixed length.
An ordered roster of builders takes turns, one slot each. A request is
accepted only from the builder whose turn it is, and only inside a band of
seconds within the slot.

The model has four parts. Each is a Dafny module in a file of its own.

- `Calc` (`calc.dfy`) models the slot calculator of `src/utils/calc.rs`. It
  holds three immutable parameters: `startTimestamp`, `slotOffset` and
  `slotDuration`. It maps a timestamp to its slot, to the seconds into that
  slot, and to the slot's half-open window. It also has the Holesky,
  Pecorino host and mainnet presets. `SlotCalculator::new` is the datatype
  constructor `SlotCalculator`, and the getters are its fields.
- `AuthzConfig` (`config.dfy`) models `SlotAuthzConfig` of
  `src/perms/config.rs`. It keeps three `u8` settings, each clamped to at
  most 11. `FromEnv` models `from_env`, with the three variable reads
  passed in as inputs.
- `Permissioning` (`builders.dfy`) models `src/perms/builders.rs`. It covers
  splitting the roster string at commas, the round-robin index, the
  builder at an index or a timestamp, the band check and the permission
  check with its three typed errors.
- `Middleware` (`middleware.dfy`) models the decision that
  `BuilderPermissioningService::call` in `src/perms/middleware.rs` makes
  for one request: one of the three error responses, or forwarding to the
  inner service.
- `Wrappers` (`wrappers.dfy`) holds `Option` and `Result`.

The parts modelled are pure computations over immutable values, and they
become datatypes, functions and lemmas. The source's clock reads
(src/utils/calc.rs:148-155, src/perms/builders.rs:18-20) become a time
parameter. The middleware's `call` (src/perms/middleware.rs:136-176) takes
`&mut self`, clones the service and awaits the inner call; only the decision
it makes is modelled, as "## Left out" says.

## Conventions

- `u64` values are `nat`, so overflow is not modelled. Rust's `/` and `%`
  on unsigned values agree with Dafny's on `nat`.
- Each `requires` matches a panic in the source, except the stand-in
  conventions for `src/perms/builders.rs` listed below. A division by
  `slot_duration` needs it to be non-zero. `time_to_slot` divides only once
  the timestamp has reached the start, so `TimeToSlot` and the functions
  built on it require `t < startTimestamp || Valid(c)`.
  `point_within_slot` always takes `start_timestamp % slot_duration`, so it
  requires `Valid(c)`. `slot_window` subtracts without a check, and its two
  requires say that neither subtraction goes below zero.
- `src/perms/builders.rs` does not line up with the other files. It reaches
  the calculator through `SlotAuthzConfig`, which has no calculator in
  `src/perms/config.rs`. It also calls `calculate_slot` and
  `current_timepoint_within_slot`, which `src/utils/calc.rs` does not define.
  The model fixes one convention:
  - The calculator is a third field, `calculator`, of the `Builders`
    record. `SlotAuthzConfig` keeps exactly the three fields of config.rs.
  - The slot of `t` is `TimeToSlot(t).value`. The point within the slot is
    `PointWithinSlot(t).value`. Both are used only for timestamps at or
    after the chain's start. So the `t >= startTimestamp` requires of
    `Index`, `BuilderAtTimestamp`, `IsBuilderPermissioned` and `Call`, and
    the `PointWithinSlot(..).Some?` requires of `CheckQueryBounds`, match no
    panic: they mark where these stand-ins are defined.
  - The clock reads (`now()`, `current_builder`, `index_now`) are replaced
    by one parameter `now`.
  - An empty roster would divide by zero, so the roster functions require
    `Serviceable(b)`: a non-empty roster and a non-zero slot duration.
- Timestamps are placed as the code places them. A timestamp exactly on a
  slot boundary belongs to the later slot, and `startTimestamp` is in slot
  `slotOffset + 1`. Some assertions in the source's own tests disagree
  with the code. Those at calc.rs lines 213, 219, 253 and 256-258 expect
  the earlier slot at a boundary timestamp. Those at calc.rs lines 187-197
  disagree everywhere, by far more than one slot: on `new(12, 0, 12)` they
  expect `Some(13)`, `Some(14)` and `Some(15)` at times 1 to 36, while the
  code gives `None` below 12 and then `Some(1)`, `Some(2)` and `Some(3)`
  (line 189 expects `time_to_slot(12) == Some(13)`; the code gives
  `Some(1)`). The model follows the code and the doc comment at calc.rs
  lines 13-20. `HoleskySchedule` and
  `MainnetSchedule` prove the values the code gives at the timestamps
  those assertions use.
- Two behaviours that the code fixes and a reader might expect otherwise:
  - An empty `x-jwt-claim-sub` header is not rejected as such. It goes to
    the permission check like any other sub.
  - The window settings are clamped to 11, not to the slot duration of the
    calculator in use.
  - The doc comment of `point_within_slot` (calc.rs line 107) says it
    returns `None` before the chain's start. The code returns a point for
    every `t` with `startTimestamp % slotDuration <= t < startTimestamp`
    too; the model follows the code. `PointBeforeStart` states this, and
    `HoleskyPointBeforeStart` shows that on Holesky one second before the
    start is point 11 while `TimeToSlot` gives no slot.

## Model

| member | source | states |
|---|---|---|
| `Calc.Holesky` | src/utils/calc.rs:64-73 | the Holesky preset has a non-zero duration and initial slot 2 |
| `Calc.PecorinoHost` | src/utils/calc.rs:76-82 | the Pecorino host preset has a non-zero duration and initial slot 0 |
| `Calc.Mainnet` | src/utils/calc.rs:85-91 | the mainnet preset has a non-zero duration and initial slot 4700013 |
| `Calc.SlotWindow` | src/utils/calc.rs:126-131 | a slot's window lasts exactly one duration; the window of `slotOffset` ends at the start and the window of `slotOffset + 1` begins there; defined only where the source's two subtractions do not underflow |
| `Calc.SlotWindowDefined` | src/utils/calc.rs:128-129 | every slot after `slotOffset` meets `SlotWindow`'s requires |
| `Calc.TimeToSlot` | src/utils/calc.rs:96-102 | no slot exactly before the chain's start; the start itself is slot `slotOffset + 1`; every slot given is after `slotOffset` |
| `Calc.TimeToSlotInWindow` | src/utils/calc.rs:96-131 | the window of the slot given for `t` contains `t` |
| `Calc.SlotWindowExact` | src/utils/calc.rs:96-131 | for a slot after `slotOffset`, `t` is in its window if and only if `TimeToSlot(t)` is that slot |
| `Calc.SlotWindowsAdjacent` | src/utils/calc.rs:126-131 | each window ends where the next begins: no gap and no overlap |
| `Calc.TimeToSlotMonotone` | src/utils/calc.rs:96-102 | the slot number never decreases as time advances |
| `Calc.TimeToSlotAdvance` | src/utils/calc.rs:96-102 | `k` durations later the slot number is exactly `k` higher |
| `Calc.SlotUtcOffset` | src/utils/calc.rs:173-175 | the offset is below the duration and at most the start, and the start minus it is a multiple of the duration |
| `Calc.PointWithinSlot` | src/utils/calc.rs:108-113 | no result exactly when `t < startTimestamp % slotDuration`; any result is below the duration; from the start on it equals `(t - startTimestamp) % slotDuration` |
| `Calc.PointWithinSlotWindow` | src/utils/calc.rs:108-131 | inside any slot window, including that of `slotOffset`, the point is the time elapsed since the window's start |
| `Calc.PointAtSlotEdges` | src/utils/calc.rs:108-131 | a window's first second is point 0 and its last second is point `slotDuration - 1` |
| `Calc.PointBeforeStart` | src/utils/calc.rs:96-113 | between `startTimestamp % slotDuration` and the start, there is a point within the slot but no slot, unlike what the doc comment at line 107 says |
| `Calc.PointIsOffsetIntoWindow` | src/utils/calc.rs:108-142 | from the start on, the point is `t` minus the start of `SlotWindowForTimestamp(t)` |
| `Calc.CheckedPointWithinSlot` | src/utils/calc.rs:117-123 | a result exactly when `t` lies in slot `slot`; the result is then `PointWithinSlot(t)`, which is `t` minus the slot's window start |
| `Calc.SlotWindowForTimestamp` | src/utils/calc.rs:137-142 | no window exactly before the start; otherwise a window of one duration that contains `t` |
| `Calc.TwoSecondSlotBoundaries` | src/utils/calc.rs:280-290 | the slots of `new(0, 0, 2)` at times 0 to 6 |
| `Calc.TwelveSecondSlotBoundaries` | src/utils/calc.rs:292-313 | the slots of `new(12, 0, 12)` and `new(12, 1, 12)` around their first boundaries, with nothing before 12 |
| `Calc.HoleskySchedule` | src/utils/calc.rs:200-240 | the Holesky slots, points and windows as the code computes them, including the boundary timestamps where the test at lines 213 and 219 expects the earlier slot |
| `Calc.HoleskyPointBeforeStart` | src/utils/calc.rs:64-113 | on Holesky, one second before the start is point 11 and has no slot |
| `Calc.MainnetSchedule` | src/utils/calc.rs:242-277 | the mainnet slots, points and windows as the code computes them, including the boundary timestamps where the test at lines 253 and 256-258 expects the earlier slot |
| `AuthzConfig.Clamp` | src/perms/config.rs:56-58 | the result is at most 11, equal to an input of at most 11, and 11 for any larger input |
| `AuthzConfig.New` | src/perms/config.rs:54-75 | each getter returns the smaller of its own argument and 11, in argument order chain offset, cutoff, start |
| `AuthzConfig.NewIdempotent` | src/perms/config.rs:54-75 | rebuilding a configuration from its own getters gives the same configuration |
| `AuthzConfig.NewImageIsClamped` | src/perms/config.rs:54-60 | a configuration is one that `new` builds if and only if all three values are at most 11 |
| `AuthzConfig.BoundsNotOrdered` | src/perms/config.rs:57-58 | the start and the cutoff are clamped independently, so the start can end up after the cutoff |
| `AuthzConfig.MapErr` | src/perms/config.rs:83-89 | a parse error gets the tag of its setting; a missing or empty variable keeps its variant and name |
| `AuthzConfig.FromEnv` | src/perms/config.rs:81-97 | succeeds exactly when all three reads succeed, and then equals `New` of the read values; otherwise it gives the first failing read in the order chain offset, cutoff, start, tagged with its setting |
| `Permissioning.Split` | src/perms/builders.rs:105-107 | splitting at `,` gives one more piece than there are commas, and no piece contains a comma |
| `Permissioning.JoinSplit` | src/perms/builders.rs:105-107 | joining the pieces with `,` gives back the input, so nothing is trimmed or dropped |
| `Permissioning.SplitJoin` | src/perms/builders.rs:105-107 | splitting comma-free pieces joined with `,` gives back the pieces |
| `Permissioning.SplitBuilders` | src/perms/builders.rs:105-107 | one builder per piece, in order; the subs join back to the input and contain no comma |
| `Permissioning.SixBuilderRoster` | src/perms/builders.rs:195-211 | the roster string "0,1,2,3,4,5" gives builders "0" to "5" at indices 0 to 5 |
| `Permissioning.EmptyRosterString` | src/perms/builders.rs:105-107 | the empty string gives a single builder with an empty sub |
| `Permissioning.Index` | src/perms/builders.rs:141-143 | the index is always a valid roster position |
| `Permissioning.BuilderAt` | src/perms/builders.rs:130-132 | a valid index gives a roster member |
| `Permissioning.BuilderAtTimestamp` | src/perms/builders.rs:135-137 | the builder at a timestamp is a roster member |
| `Permissioning.IndexConstantWithinSlot` | src/perms/builders.rs:141-143 | every timestamp in one slot window has the same index |
| `Permissioning.IndexNextSlot` | src/perms/builders.rs:141-143 | one slot later the index is one higher, modulo the roster length |
| `Permissioning.IndexPeriodic` | src/perms/builders.rs:141-143 | the index repeats after as many slots as there are builders |
| `Permissioning.RosterTurnWithinPeriod` | src/perms/builders.rs:141-143 | every roster position comes up within the next `len` slots |
| `Permissioning.IndexDistinctWithinPeriod` | src/perms/builders.rs:141-143 | no position comes up twice within `len` consecutive slots |
| `Permissioning.CheckQueryBounds` | src/perms/builders.rs:157-166 | too early exactly when the point is below the start; too late exactly when it is at least the start and above the cutoff; accepted exactly inside the inclusive band |
| `Permissioning.IsBuilderPermissioned` | src/perms/builders.rs:172-185 | the timing errors come first; inside the band the result is `Ok` exactly for the current builder's sub and `NotPermissioned` for every other sub |
| `Permissioning.PermissionExclusive` | src/perms/builders.rs:172-185 | at most one sub is permitted at any instant |
| `Permissioning.InvertedBandRejectsAll` | src/perms/builders.rs:157-166 | with the start after the cutoff every request is refused, and always for timing |
| `Permissioning.NoConsecutiveTurns` | src/perms/builders.rs:172-185 | with distinct subs and at least two builders, the builder permitted in one slot is refused in the next |
| `Permissioning.ThreeBuilderTurns` | src/perms/builders.rs:141-143 | roster a, b, c on 12-second slots: time 84 is slot 7, so index 1 and builder "b" |
| `Permissioning.BandEdges` | src/perms/builders.rs:157-185 | in a 12-second slot with band 1..=11, point 0 is too early and points 1 and 11 are accepted; with cutoff 10, point 11 is too late; a wrong sub inside the band is not permissioned |
| `Middleware.MissingHeader` | src/perms/middleware.rs:27-35 | status 401, code `MISSING_AUTH_HEADER`, message "Missing authentication header" |
| `Middleware.InvalidHeaderEncoding` | src/perms/middleware.rs:38-46 | status 400, code `INVALID_HEADER_ENCODING`, message "Invalid header encoding" |
| `Middleware.PermissionDenied` | src/perms/middleware.rs:49-57 | status 403, code `PERMISSION_DENIED`, message "Builder permission denied" |
| `Middleware.RejectionsDistinct` | src/perms/middleware.rs:27-57 | the 401, 400 and 403 responses differ in status and in error code |
| `Middleware.Call` | src/perms/middleware.rs:136-176 | missing header gives 401 `MISSING_AUTH_HEADER`; an undecodable header gives 400 `INVALID_HEADER_ENCODING`; any permission error gives 403 `PERMISSION_DENIED`; the request is forwarded exactly when the permission check is `Ok`, and the inner result comes back unchanged |
| `Middleware.ForwardedOnlyForCurrentBuilder` | src/perms/middleware.rs:150-174 | a request is forwarded exactly when its header names the current builder and the point is inside the band |
| `Middleware.AllPermissionErrorsAreForbidden` | src/perms/middleware.rs:167-170 | every permission error, and no other outcome of a decoded header, gives the same 403 |
| `Middleware.EmptySubIsCheckedLikeAnyOther` | src/perms/middleware.rs:150-167 | an empty sub is not rejected specially; it is forwarded only when the current builder's sub is empty and the point is inside the band |

## Left out

- Integer width: the `u64` and `usize` arithmetic is on unbounded `nat`. Overflow in `time_to_slot` and `slot_window`, and the `as u64` and `as usize` casts, are not modelled.
- The clock: `current_slot` and `current_point_within_slot` (src/utils/calc.rs:148-155), `now()`, `index_now` and `current_builder` (src/perms/builders.rs:18-20, 147-154). Each is `TimeToSlot`, `PointWithinSlot`, `Index` or `BuilderAtTimestamp` applied to a clock reading. The model takes the time as a parameter instead.
- `Permissioning.IsBuilderPermissioned`: the source reads the clock separately in `check_query_bounds` and in `current_builder`. The model assumes one instant for both.
- `Permissioning.Index`: defined only from the chain's start on. `calculate_slot` is not a method of `SlotCalculator` in src/utils/calc.rs, so its value before the start is unknown.
- Reading environment variables, and the `FromEnv` derive and macro crates. `FromEnv` takes the three read results as inputs; parsing a `u8` from text is not modelled.
- `Builders::from_env` and serde deserialization of the roster: only `split_builders`, which they call, is modelled.
- `chain_offset` is stored and clamped, but nothing in the decision logic reads it.
- The re-export of `ETHEREUM_SLOT_TIME` at src/perms/mod.rs:5: `ETHEREUM_SLOT_TIME` is not defined in src/perms/builders.rs, which mod.rs:5 re-exports it from.
- The middleware's Tower `Layer`, `Service` and `poll_ready` plumbing, async boxing, and the clone of `self`. Awaiting `inner.call(req)` becomes the given inner result. A pure model cannot observe whether the inner service was called; `Call` states only that its result is returned on the forward path and not on any other.
- `HeaderValue::to_str` is taken as an outcome: missing, invalid encoding, or a string. The rule for which header bytes are valid is not modelled.
- Tracing spans, log events and metrics in the middleware and in `is_builder_permissioned`.
- Everything outside these four core files: OAuth, tx-cache, pylon, Flashbots, providers, signers, OTLP, block watching, examples and integration tests.
