# thinkpad_gsw: the PMH7 discrete-GPU power switch, in Dafny

`thinkpad_gsw` is a Linux kernel module. It switches power to the discrete
(NVIDIA) GPU of a ThinkPad on and off. It does this by flipping bits in one byte of the
PMH7 power-management chip. That byte is reached through an index window in port I/O:
an address-low port at `0x15ec`, an address-high port at `0x15ed` and a data port at
`0x15ee`. The byte's index is `0x0050`. The module registers with `vga_switcheroo` as a
handler. `vga_switcheroo` calls it to identify the GPUs and to power the discrete one
on or off.

This project models the module's core:

- **The register layout and bit arithmetic** (`pmh7.dfy`, module `Pmh7`). It holds the
  port and index constants, the commit ("write-enable") bit 7 and the power bit 3, and
  the byte-level effect of a peek (`Peeked`) and a poke (`Poked`). A byte (`Byte`) is
  its eight bits, element `i` being bit `i`. The C operators `|`, `&` and `& ~` act bit
  by bit, and are defined that way. `Mask` models the C expression `1 << bit` after
  truncation to `unsigned char`, so a bit number of 8 or more masks nothing.
- **The chip behind its index window** (`ec_ports.dfy`, module `EcPorts`). Class `Ec`
  holds the DGPU control byte and the two index latches. It also holds a ghost log of
  every `outb`, `inb`, `usleep_range` and `msleep`, in order. The selection is not
  sticky: each data-port access clears both latches. Data-port access requires the
  index `0x50`/`0x00` to be latched. So every path that reaches the data port must
  have selected the byte first.
- **The raw backend** (`register_backend.dfy`, module `RegisterBackend`). `RawPeek`
  and `RawPoke` follow `thinkpad_gsw_dgpu_raw_peek` and `thinkpad_gsw_dgpu_raw_poke`
  access for access. The poke is a read-modify-write that re-selects the byte before
  its write-back.
- **The power sequences** (`power_sequence.dfy`, module `PowerSequence`). `DgpuDisable`
  and `DgpuEnable` are the two fixed scripts of pokes and delays. `TwoPhaseCommit`
  states the ordering discipline over the successive values of the byte:
  - the power bit changes only while the commit bit is clear;
  - the commit bit rises only once the power bit holds its target;
  - both bits end at the target.
- **The switcheroo callbacks** (`switcheroo.dfy`, module `Switcheroo`). These are the
  vendor-to-client mapping, the no-op `switchto`, and `power_state`. `power_state`
  routes the discrete GPU's Off/On requests to the sequences and rejects any other
  state with `-EINVAL`.

The vga_switcheroo enumerations come from the kernel header, which is not part of this
model. `ClientId` is `Igd | Dis | UnknownId` and `SwitcherooState` is
`Off | On | Other`. `Other` stands for every other value of the state enumeration,
`VGA_SWITCHEROO_NOT_FOUND` among them: all of them reach the `default:` branch of
`power_state`. `EINVAL` is 22. The PCI vendor ids are `0x10de` (NVIDIA) and
`0x8086` (Intel).

## Model

| member | source | states |
|---|---|---|
| `Pmh7.Mask` | thinkpad_gsw.c:38 | `1 << bit`, computed as the byte 1 shifted up `bit` places with the top bit dropped each time, has exactly bit `bit` set, and is zero when `bit` is 8 or more (proved by induction over the shift) |
| `Pmh7.Peeked` | thinkpad_gsw.c:37-39 | `(b & (1 << bit)) != 0` holds exactly when `bit` is inside the byte and set in `b` |
| `Pmh7.Poked` | thinkpad_gsw.c:45-50 | the byte that setting (:47) or clearing (:49) the masked bit leaves has `bit` equal to the requested value and every other bit as read |
| `Pmh7.PokeOutsideByteIsIdentity` | thinkpad_gsw.c:46-50 | a bit number from 8 to 30 writes back exactly the byte that was read |
| `Pmh7.PokeIdempotent` | thinkpad_gsw.c:42-55 | poking the same bit to the same value twice gives the byte one poke gives |
| `Pmh7.PokeUndo` | thinkpad_gsw.c:34-55 | poking back the value peeked beforehand restores the original byte |
| `Pmh7.PokesCommute` | thinkpad_gsw.c:42-55 | pokes of two different bits give the same byte in either order |
| `EcPorts.Select` | thinkpad_gsw.c:35-36 | selecting the DGPU byte (the same two `outb` calls at :43-44 and :52-53) is two accesses, neither of them to the data port, and writes nothing to it |
| `EcPorts.Ec.Outb` | thinkpad_gsw.c:52-54 | an index-port write latches that index byte; a data-port write is allowed only while index 0x50/0x00 is latched, and it stores the byte and clears the selection |
| `EcPorts.Ec.Inb` | thinkpad_gsw.c:37 | a data-port read is allowed only while the byte is selected; it returns the byte unchanged and clears the selection |
| `EcPorts.Ec.UsleepRange` | thinkpad_gsw.c:61 | a ranged settle delay is recorded in the log, in order, with its bounds |
| `EcPorts.Ec.Msleep` | thinkpad_gsw.c:63 | a fixed settle delay is recorded in the log, in order |
| `EcPorts.DisciplinedAppend` | thinkpad_gsw.c:35-54 | joining two logs in which every data access directly follows the 0x50/0x00 selection gives another such log |
| `RegisterBackend.PeekScript` | thinkpad_gsw.c:35-37 | a peek's accesses select the byte before its data read and write nothing to the data port |
| `RegisterBackend.PokeScript` | thinkpad_gsw.c:43-54 | a poke's accesses select the byte before both its data read and its data write, and its only data write is the written-back byte |
| `RegisterBackend.RawPeek` | thinkpad_gsw.c:34-40 | returns whether `bit` is set, leaves the byte unchanged, and logs select-select-read |
| `RegisterBackend.RawPoke` | thinkpad_gsw.c:42-55 | leaves `Poked(old byte, bit, on != 0)`: `bit` set to `on != 0` and the other bits kept; logs select, read, select again, write |
| `PowerSequence.Disabled` | thinkpad_gsw.c:60-62 | the byte the two disable pokes leave has bits 7 and 3 clear and the other six bits as before |
| `PowerSequence.Enabled` | thinkpad_gsw.c:67-70 | the byte the three enable pokes leave has bits 7 and 3 set and the other six bits as before |
| `PowerSequence.DisableAfterEnable` | thinkpad_gsw.c:58-72 | enable then disable leaves the byte that disable alone leaves |
| `PowerSequence.EnableAfterDisable` | thinkpad_gsw.c:58-72 | disable then enable leaves the byte that enable alone leaves |
| `PowerSequence.DisableScript` | thinkpad_gsw.c:60-63 | the disable script selects the byte before every data access; its data writes are exactly the commit-cleared byte and then the power-cleared byte |
| `PowerSequence.EnableScript` | thinkpad_gsw.c:67-71 | the enable script selects the byte before every data access; its data writes are exactly commit-cleared, then power-set, then commit-set |
| `PowerSequence.DisableProtocol` | thinkpad_gsw.c:60-62 | the starting byte followed by the bytes the disable script writes keeps the two-phase commit towards off: the commit bit is dropped before the power bit changes, and both end clear |
| `PowerSequence.EnableProtocol` | thinkpad_gsw.c:67-70 | the starting byte followed by the bytes the enable script writes keeps the two-phase commit towards on: the commit bit is clear while the power bit rises, rises only after it, and both end set |
| `PowerSequence.DisableRun` | thinkpad_gsw.c:60-63 | two pokes (7 off, 3 off) with the two delays between and after them leave `Disabled(b)` and log exactly the disable script, which is disciplined and keeps the two-phase commit |
| `PowerSequence.EnableRun` | thinkpad_gsw.c:67-71 | three pokes (7 off, 3 on, 7 on) with the two delays leave `Enabled(b)` and log exactly the enable script, which is disciplined and keeps the two-phase commit |
| `PowerSequence.DgpuDisable` | thinkpad_gsw.c:58-64 | performs exactly the disable script; ends with bits 7 and 3 clear and the rest unchanged; keeps the two-phase commit |
| `PowerSequence.DgpuEnable` | thinkpad_gsw.c:65-72 | performs exactly the enable script; ends with bits 7 and 3 set and the rest unchanged; keeps the two-phase commit |
| `Switcheroo.GetClientId` | thinkpad_gsw.c:74-88 | NVIDIA maps to DIS, Intel to IGD, and any other vendor to UNKNOWN_ID, each as an if-and-only-if |
| `Switcheroo.Switchto` | thinkpad_gsw.c:90-94 | always returns 0 |
| `Switcheroo.PowerStateResult` | thinkpad_gsw.c:96-117 | returns -EINVAL exactly for DIS with a state other than Off/On, and 0 otherwise; DIS/Off leaves bits 7 and 3 clear, DIS/On leaves them set, the rest is kept, and every other request leaves the byte as it was |
| `Switcheroo.PowerCycle` | thinkpad_gsw.c:96-117 | on-then-off and off-then-on both succeed and leave the byte that the last request alone leaves |
| `Switcheroo.OnlyDiscreteGpuIsSwitched` | thinkpad_gsw.c:74-117 | a power request can change the control byte only for the device whose vendor is NVIDIA |
| `Switcheroo.PowerState` | thinkpad_gsw.c:96-117 | returns and leaves what `PowerStateResult` says; performs exactly the disable or enable script for DIS/Off or DIS/On; changes nothing at all otherwise |

## Left out

- Real port I/O (`outb`/`inb`) is replaced by the in-memory `Ec`. It holds only the
  DGPU control byte: the chip's other bytes, and a data access at any other index, are
  not modelled. The driver never selects any other index.
- Delays (`usleep_range`, `msleep`) are only entries in the log. Their durations are
  not reasoned about.
- Logging (`pr_info`, `pr_warn`, `pr_err`) is not modelled. This includes the warning
  in `power_state` that prints `id` where it means `state`; that only affects the
  message text.
- Module init/exit and the handler registration with `vga_switcheroo`
  (thinkpad_gsw.c:119-145) are kernel plumbing with no logic of their own. They are not
  modelled.
- RegisterBackend.RawPeek: requires `bit < 31`. The C shift `1 << bit` is done on `int`
  and overflows from bit 31 on. `raw_peek` has no caller in this file.
- RegisterBackend.RawPoke: requires `bit < 31`, for the same reason as RawPeek. Its
  callers pass only 7 and 3.
- `raw_peek` returns the C `int` 1 or 0. Here it returns `true` or `false`.
- The log in `Ec` is ghost: it records the order of accesses for the proofs. It plays
  no part in what the driver computes.
- There is no locking and no concurrency. The code has none, so interleaved callers are
  not modelled.
- The module has none of the following, so none of them is modelled:
  - a PCI liveness check;
  - an in-use guard for a bound driver;
  - D3cold/D0 and bridge runtime-PM bracketing;
  - suspend/resume handling;
  - a sysfs control attribute;
  - desired states applied at load and unload.

  In particular, enable and disable have no "already in that state" check. Each call
  always performs its full script of pokes, as the model's `ec.log` postconditions
  state.
