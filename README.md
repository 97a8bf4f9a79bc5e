# keyboard2deck, modelled in Dafny

keyboard2deck turns a spare USB keyboard into a macro pad. For each configured
device it waits for a HID keyboard with a given vendor and product id and
opens it. It then reads boot-protocol input reports and decodes them into
PRESSED and RELEASED key events. When a key bound to a macro is RELEASED, it
runs that macro. A macro is either a shell command or a keyboard shortcut
replayed through an input-simulation library.

The model covers four parts:

- **Keys** (`keys.dfy`, plus `rdev.dfy`). The three key tables:
  - usage code to key;
  - modifier bit to key;
  - key to injection target.

  A key is a number in the order of the source enum, with one named constant
  per variant. The injection targets are numbered the same way, one constant
  per target the table uses. (A datatype with a `match` would read closer to
  the source, but it makes the round-trip proofs over the two 70-entry tables
  too costly to check.)
- **Keyboard** (`keyboard.dfy`). The stateful report decoder: a class with
  the retained `previousEvents` vector. It has the methods `Events` and
  `MapPreviousState`, written as the source's loops, which overwrite consumed
  entries with `Unknown`. Each is proved equal to a pure specification:
  - `ScanSlots` and `Step`: the scan;
  - `ReleasedKeys`: the release loop;
  - `Decode` and `NextPrevious`: one whole call.

  Lemmas state the decoder's promises about those functions.
- **Device** (`device.dfy`). `is_present`, `listen` and `process_events` as
  loops over an abstract HID library, with the `MacrosBinding` lookup. Each
  loop is proved equal to a recursive session specification:
  - `ProcessSpec`, `ProcessRead` and `ProcessReport` for a connection;
  - `ListenSpec`, `ListenStep` and `ListenConnected` for the device loop.
- **Shortcut** (`shortcut.dfy`, plus `macros.dfy`). Building a shortcut, and
  replaying it as an output trace of injection attempts and 20 ms sleeps.
  `macros.dfy` states the closed choice of macro kinds.

The HID library is an oracle `Hid`. It gives what the `n`-th device-list
refresh sees, whether the `n`-th open succeeds, and what the `n`-th read
returns: an error, or the bytes delivered.

The shared `running` flag is modelled as a count. `live` (for `listen`) or
`budget` (for `process_events`) is the number of loads that still return
true. Once cleared, the flag stays cleared.

The outcome of each call into the simulation library is an oracle
`simulate`, indexed by call number.

### Behaviour worth knowing

- Re-sending an unchanged report does not always yield no events. The second
  copy yields none. But a key that is reported again consumes its retained
  entry, so it neither appears in the new state nor is released. The third
  copy of the report therefore presses it again.
  `Keyboard.HeldKeyIsPressedAgain` proves exactly this.
- The retained state can hold the same key twice: two slots with the same
  byte press it twice (`Keyboard.DuplicateSlotsPressTwice`). Then each slot
  naming the key consumes only one copy. So a report naming it once still
  RELEASES it (`Keyboard.DuplicateRetainedReleasedWhileHeld`). And a held key
  named in two slots is PRESSED again (`Keyboard.HeldKeyPressedByDuplicateSlot`).
  For every state, `Keyboard.ScanCounts` gives the counts. The RELEASED keys
  are the retained keys minus the scanned keys, as multisets. The PRESSED keys
  are the scanned keys minus the retained keys.
- `events` returns a `Result` that is always `Ok`. The model returns the
  event list itself.

## Model

| member | source | states |
|---|---|---|
| `Keys.TryKeyFrom` | src/keyboard.rs:209-284 | A byte decodes exactly when it is 0x04..0x46, 0x49, 0x4A, 0x4C or 0x4D, and never to `Unknown` |
| `Keys.UsageCodeInverse` | src/keyboard.rs:209-284 | The table is the exact inverse of an independent per-key usage-code function |
| `Keys.TryKeyFromInjective` | src/keyboard.rs:209-284 | Two bytes that decode to the same key are the same byte |
| `Keys.ContiguousUsage` | src/keyboard.rs:211-276 | Codes 0x04..0x45 decode to the key at enum position code-3 (A..F12) |
| `Keys.TryModFrom` | src/keyboard.rs:286-296 | A modifier byte decodes exactly when it is 0x01, 0x02, 0x04, 0x10, 0x20 or 0x40, and always to a shift, control or alt key |
| `Keys.TryModFromInjective` | src/keyboard.rs:286-296 | Distinct modifier bits give distinct keys |
| `Keys.TryIntoRdev` | src/keyboard.rs:298-378 | Conversion fails exactly for `Unknown`, `Home`, `Insert` and `End` |
| `Keys.IntoRdevInverse` | src/keyboard.rs:298-378 | Mapping a target back gives the key up to the Alt and Grave/Intlbackslash aliasing |
| `Keys.IntoRdevCollision` | src/keyboard.rs:345-373 | The only keys sharing a target are the three Alt keys, and Grave with Intlbackslash |
| `Keys.IntoRdevNotInjective` | src/keyboard.rs:345-373 | Those collisions do happen |
| `Keyboard.FirstIndexOf` | src/keyboard.rs:89-95 | The position found holds the key and no earlier position does |
| `Keyboard.Consume` | src/keyboard.rs:88-98 | A key matches exactly when it is retained; only its first entry becomes `Unknown` and nothing else changes |
| `Keyboard.ScanEnd` | src/keyboard.rs:33-39 | The scan covers exactly the slots before the first byte <= ErrorRollOver |
| `Keyboard.Step` | src/keyboard.rs:41-59 | One slot: an unmapped byte changes nothing; a mapped key consumes its first retained entry, or else is added as PRESSED. The contract keeps the retained length and adds at most that key |
| `Keyboard.ScanReport` | src/keyboard.rs:33-60 | Defines the scan of one report: `Step` over the slots before the first marker. `ScanCounts`, `MarkerEndsScan` and `UnmappedIsSkipped` state its properties |
| `Keyboard.Decode` | src/keyboard.rs:30-86 | Defines the events of one call: PRESSED keys of the scan in slot order, then RELEASED unconsumed entries in retained order. `ReportCounts`, `PressedBeforeReleased`, `NoUnknownEvent` and `ReadsOnlySlots` state its properties; `Keyboard.Keyboard.Events` is proved equal to it |
| `Keyboard.NextPrevious` | src/keyboard.rs:74-81 | Defines the state after one call: the scan's PRESSED keys. `RetainedIsPressed` and `RetainedBound` state its properties |
| `Keyboard.PressedKeys` | src/keyboard.rs:74-81 | Defines the keys of the PRESSED events, in order; the rebuild loop `RetainPressed` is proved equal to it |
| `Keyboard.ScanSlots` | src/keyboard.rs:33-60 | Scanning keeps the retained vector's length; it adds at most one PRESSED key per slot, never `Unknown` |
| `Keyboard.Slots` | src/keyboard.rs:33-34 | A read of `length` bytes exposes exactly the bytes at indices 2..length-1 |
| `Keyboard.ReleasedKeys` | src/keyboard.rs:63-72 | The released keys are retained keys, never `Unknown`, no more than retained |
| `Keyboard.Keyboard.constructor` | src/keyboard.rs:24-28 | A new decoder retains nothing |
| `Keyboard.Keyboard.Events` | src/keyboard.rs:30-86 | The events equal `Decode` of the old state; the new state is the PRESSED keys of those events, at most six and without `Unknown` |
| `Keyboard.Keyboard.ScanPressed` | src/keyboard.rs:33-60 | The scan loop yields the PRESSED events of `ScanReport` and leaves its consumed vector |
| `Keyboard.Keyboard.ScanSlot` | src/keyboard.rs:41-59 | One slot does one `Step`: skip, consume or press |
| `Keyboard.Keyboard.AppendReleased` | src/keyboard.rs:63-72 | Appends a RELEASED event for each retained entry that is not `Unknown`, in order |
| `Keyboard.Keyboard.RetainPressed` | src/keyboard.rs:74-81 | The state becomes the keys of the PRESSED events, in order |
| `Keyboard.Keyboard.MapPreviousState` | src/keyboard.rs:88-98 | The in-place search and overwrite equals `Consume` |
| `Keyboard.RetainedIsPressed` | src/keyboard.rs:74-81 | The retained state after a call equals the PRESSED keys of that call's events |
| `Keyboard.RetainedBound` | src/keyboard.rs:74-81 | The retained state holds at most length-2 <= 6 keys and never `Unknown` |
| `Keyboard.PressedBeforeReleased` | src/keyboard.rs:52-72 | No PRESSED event follows a RELEASED event |
| `Keyboard.NoUnknownEvent` | src/keyboard.rs:64-66 | No event names `Unknown`, whatever the state holds |
| `Keyboard.ReadsOnlySlots` | src/keyboard.rs:33-34 | Two buffers that agree on indices 2..length-1 decode identically |
| `Keyboard.MarkerEndsScan` | src/keyboard.rs:36-39 | Slots after a byte <= ErrorRollOver change neither the PRESSED nor the RELEASED events |
| `Keyboard.UnmappedIsSkipped` | src/keyboard.rs:41-47 | An unmapped byte above ErrorRollOver decodes as if it were absent, and the scan continues past it |
| `Keyboard.ScanSlotsConcat` | src/keyboard.rs:33-60 | Scanning two pieces is scanning the second from the state after the first |
| `Keyboard.ReleasedKeysMembers` | src/keyboard.rs:63-72 | A key is released iff it is a non-`Unknown` entry of the consumed vector |
| `Keyboard.ScanAccounting` | src/keyboard.rs:52-54 | For a retained state of distinct keys: after a scan, exactly the entries named by a scanned slot are `Unknown` |
| `Keyboard.ReleasedExactlyUnconsumed` | src/keyboard.rs:52-72 | For a retained state of distinct keys: a retained key is RELEASED iff no scanned slot names it; with distinct scanned keys, PRESSED iff scanned and not retained |
| `Keyboard.ScanCounts` | src/keyboard.rs:41-72 | For any retained state without `Unknown`, duplicates included: the keys left to release are the retained keys minus the scanned keys, and the PRESSED keys are the scanned keys minus the retained keys, as multisets |
| `Keyboard.ReportCounts` | src/keyboard.rs:30-86 | The same counts for one report's events, over the slots before the first marker |
| `Keyboard.ReleasedKeysUpdate` | src/keyboard.rs:52-72 | Consuming one retained entry removes exactly one copy of its key from what is RELEASED |
| `Keyboard.DuplicateRetainedReleasedWhileHeld` | src/keyboard.rs:52-72 | From the reachable state [A, A], a report naming A once gives [RELEASED A] and leaves the state empty |
| `Keyboard.HeldKeyPressedByDuplicateSlot` | src/keyboard.rs:52-59 | With A held, a report naming A in two slots gives [PRESSED A] and keeps [A] |
| `Keyboard.HeldKeyIsPressedAgain` | src/keyboard.rs:52-81 | The same one-key report gives [PRESSED k] with state [k], then [] with state [] |
| `Keyboard.EmptyReportReleasesAll` | src/keyboard.rs:63-81 | An empty report releases every retained key in order and empties the state |
| `Keyboard.PressThenRelease` | src/keyboard.rs:30-86 | A fresh decoder fed [_,_,0x04,0,...] then [0;8] gives [PRESSED A], then [RELEASED A] |
| `Keyboard.ReconfirmedKeyNeverReleased` | src/keyboard.rs:52-81 | A held key reported with a new key is dropped from the state and never RELEASED |
| `Keyboard.DuplicateSlotsPressTwice` | src/keyboard.rs:52-59 | The same byte in two slots gives two PRESSED events |
| `Keyboard.RollOverHidesLaterSlots` | src/keyboard.rs:36-39 | Keys after ErrorRollOver are not pressed, while unconsumed retained keys are still released |
| `Device.IsPresent` | src/device.rs:60-71 | Present iff some listed device has both the vendor and the product id |
| `Device.ReadLength` | src/device.rs:78 | A read stores min(delivered, 8) bytes |
| `Device.Fill` | src/device.rs:77-78 | The buffer holds the delivered bytes and is zero after them |
| `Device.Dispatch` | src/device.rs:89-97 | Defines which keys run for a list of events: the bound keys of RELEASED events, in event order. `DispatchMembers`, `DispatchConcat`, `DispatchPressed` and `DispatchReleased` state its properties |
| `Device.Bound` | src/device.rs:94-97 | Defines the bound keys of a list, in order; `BoundMembers` states its property |
| `Device.ReportRan` | src/device.rs:89-97 | Defines the keys run for one report: the bound keys it releases. `DispatchOfDecode` proves it equal to dispatching `Decode` |
| `Device.DispatchEvents` | src/device.rs:89-97 | The loop runs exactly the `Dispatch` of the events |
| `Device.DispatchMembers` | src/device.rs:89-97 | A key's macro runs iff it is bound and some event RELEASES it |
| `Device.DispatchIgnoresPressed` | src/device.rs:90-92 | A PRESSED event anywhere changes nothing that runs |
| `Device.DispatchPressed` | src/device.rs:90-92 | PRESSED events never run a macro |
| `Device.DispatchReleased` | src/device.rs:93-96 | RELEASED events run the macros of their bound keys, in event order |
| `Device.DispatchConcat` | src/device.rs:89-97 | Macros run in event order: dispatching two lists is dispatching each in turn |
| `Device.BoundMembers` | src/device.rs:94 | The lookup keeps exactly the keys bound in the map |
| `Device.DispatchOfDecode` | src/device.rs:89-97 | One report runs exactly the bound keys it releases |
| `Device.HandleReport` | src/device.rs:89-97 | Decodes with the connection's decoder, then runs the report's bound released keys |
| `Device.HandleRead` | src/device.rs:76-98 | One loop iteration is one unfolding of the connection specification |
| `Device.ProcessSpec` | src/device.rs:73-100 | A connection uses at most its true loads, one read per load, and uses all of them unless it fails |
| `Device.ProcessRead` | src/device.rs:78-97 | Once the flag is seen set, at least one load and one read are used |
| `Device.ProcessReport` | src/device.rs:89-97 | A delivered report also uses at least one load and one read; the connection then goes on from the next read |
| `Device.ProcessEvents` | src/device.rs:73-100 | With a fresh decoder, the loop does exactly what the connection specification says |
| `Device.EmptyReadSkipped` | src/device.rs:85-87 | A read of no bytes runs nothing and leaves the decoder state untouched |
| `Device.ReadErrorEndsConnection` | src/device.rs:78-83 | A read error ends the connection after one read, having run nothing |
| `Device.EndsAtFirstError` | src/device.rs:78-83 | Every read before the last one delivered data; the last failed iff the connection failed |
| `Device.ProcessRunsOnlyBound` | src/device.rs:93-96 | Only bound keys run during a connection |
| `Device.FreshDecoderRunsNothing` | src/device.rs:73-74 | A fresh decoder releases nothing, so keys held before a reconnect never run |
| `Device.ListenSpec` | src/device.rs:36-53 | Every true load is one probe or one read; there are never more opens than probes |
| `Device.ListenStep` | src/device.rs:39-52 | Once the flag is seen set, the same accounting holds |
| `Device.ListenConnected` | src/device.rs:45-46 | After a successful open, every true load is still one probe or one read, and opens never outnumber probes |
| `Device.Listen` | src/device.rs:36-53 | The loop does exactly what the device-loop specification says |
| `Device.ListenOnce` | src/device.rs:39-52 | One iteration makes one probe, at most one open, and fewer reads than the remaining loads |
| `Device.ListenAfterError` | src/device.rs:39-52 | After a read error, listen probes again with a new open and a fresh decoder |
| `Device.ListenRunsOnlyBound` | src/device.rs:36-53 | Every macro listen runs is bound to its key |
| `Shortcut.New` | src/macros/shortcut.rs:23-34 | Succeeds iff every key converts, storing the converted keys in order; otherwise it stops at the first unsupported key |
| `Shortcut.BuiltKeysRoundTrip` | src/macros/shortcut.rs:24-33 | A built shortcut names the configured keys, up to the Alt and Grave aliasing |
| `Shortcut.Send` | src/macros/shortcut.rs:36-45 | One attempt, then one 20 ms sleep, whatever the outcome |
| `Shortcut.Presses` | src/macros/shortcut.rs:12-14 | One key-down per key, in order |
| `Shortcut.Releases` | src/macros/shortcut.rs:16-18 | One key-up per key, in the same order |
| `Shortcut.SendAll` | src/macros/shortcut.rs:12-18 | Each event is attempted in turn and followed by its sleep; a failed attempt stops nothing |
| `Shortcut.Execute` | src/macros/shortcut.rs:11-19 | 4n trace entries: key-down i at 2i, key-up i at 2n+2i, each followed by a sleep; the attempts are the presses, then the releases |
| `Shortcut.AttemptsConcat` | src/macros/shortcut.rs:11-19 | The attempts of two traces in turn are the two lists of attempts in turn |
| `Shortcut.AttemptsOfSend` | src/macros/shortcut.rs:36-45 | One send adds exactly its event to the attempts |

## Left out

- The hidapi library itself (`refresh_devices`, `device_list`, `open`, `read_timeout`) is an oracle input. So is the 2500 ms read timeout: a timeout is a read of no bytes.
- The `unwrap` on `refresh_devices` in `is_present` would panic on a failing refresh. The oracle always returns a device list, so that panic is not modelled.
- `Mutex` locking, `AtomicBool` memory ordering and other threads are not modelled. The flag is a count of loads that return true, so clearing it is monotone.
- `thread::sleep` is recorded as `Slept` trace entries, not as time.
- `println!`/`print!` logging is not modelled.
- `rdev::simulate` is the oracle `simulate`.
- A shell macro (`src/macros/shell.rs`) spawns a process, switches uid and depends on the platform. The model records only that the bound key's macro ran (`Ran(key)`).
- A shortcut's own injections are modelled by `Shortcut.Execute` and are not inlined into the device trace.
- The macro trait (`src/macros/mod.rs`) is a closed datatype of the two kinds.
- `src/app.rs`, `src/main.rs` and `src/config.rs` are not part of this model. They hold configuration parsing, thread start-up, signal handling and device listing.
- The commented-out modifier decoding in `src/keyboard.rs` is not modelled. `try_mod_from` is modelled on its own, as the source has it.
- `Keyboard.Keyboard.Events` requires `length <= 8`. The buffer is an 8-byte array, and a larger length would panic on the index.
- `Shortcut.New` returns `Unsupported(index)` where the source panics on an unsupported configured key.
- `Keyboard.ScanAccounting`, `Keyboard.ReleasedExactlyUnconsumed` hold only for a retained state of distinct keys. The decoder can reach states with duplicates (see "Behaviour worth knowing"). For those states, `Keyboard.ScanCounts` and `Keyboard.ReportCounts` state the general counts instead.
- `Device.ListenSpec`, `Device.ProcessSpec`: a session is bounded by the number of true flag loads. Runs that never see the flag cleared are not modelled.
