/**
 The vga_switcheroo handler callbacks: client identification by PCI vendor, a
 switch that does nothing (the PMH7 is not a display multiplexer), and the
 power-state entry point that routes the discrete GPU's on/off requests to the
 power sequences.
 */
module Switcheroo {
  import opened Pmh7
  import opened EcPorts
  import opened PowerSequence

  type u16 = x: int | 0 <= x < 0x1_0000

  const PCI_VENDOR_ID_NVIDIA: u16 := 0x10de
  const PCI_VENDOR_ID_INTEL: u16 := 0x8086
  const EINVAL: int := 22

  /** The switcheroo client ids this handler hands out. */
  datatype ClientId = Igd | Dis | UnknownId

  /**
   The power states switcheroo may request: off, on, and `Other`, which stands
   for every other value of the state enumeration (`VGA_SWITCHEROO_NOT_FOUND`
   among them), all of which reach the `default:` branch of `power_state`.
   */
  datatype SwitcherooState = Off | On | Other

  /**
   `get_client_id`: the NVIDIA device is the discrete GPU, the Intel device the
   integrated one, and any other vendor is unknown.
   */
  function GetClientId(vendor: u16): (id: ClientId)
    ensures id == Dis <==> vendor == PCI_VENDOR_ID_NVIDIA
    ensures id == Igd <==> vendor == PCI_VENDOR_ID_INTEL
    ensures id == UnknownId <==> vendor != PCI_VENDOR_ID_NVIDIA && vendor != PCI_VENDOR_ID_INTEL
  {
    if vendor == PCI_VENDOR_ID_NVIDIA then Dis
    else if vendor == PCI_VENDOR_ID_INTEL then Igd
    else UnknownId
  }

  /** `switchto`: there is nothing to switch, so every request succeeds. */
  function Switchto(id: ClientId): (rc: int)
    ensures rc == 0
  {
    0
  }

  /**
   The return code of `power_state(id, state)` and the control byte it leaves,
   from control byte `b`.
   */
  function PowerStateResult(id: ClientId, state: SwitcherooState, b: Byte): (r: (int, Byte))
    ensures r.0 == 0 || r.0 == -EINVAL
    ensures r.0 == -EINVAL <==> id == Dis && state == Other
    ensures id == Dis && state == Off ==>
      !Bit(r.1, WRITE_BIT) && !Bit(r.1, POWER_BIT) && SameOutside(b, r.1, {WRITE_BIT, POWER_BIT})
    ensures id == Dis && state == On ==>
      Bit(r.1, WRITE_BIT) && Bit(r.1, POWER_BIT) && SameOutside(b, r.1, {WRITE_BIT, POWER_BIT})
    ensures id != Dis || state == Other ==> r.1 == b
  {
    if id == Dis then
      match state
      case Off => (0, Disabled(b))
      case On => (0, Enabled(b))
      case Other => (-EINVAL, b)
    else
      (0, b)
  }

  /**
   Requesting "on" and then "off" for the discrete GPU, or "off" and then
   "on", both succeed and leave the byte the last request alone would leave.
   */
  lemma PowerCycle(b: Byte)
    ensures PowerStateResult(Dis, Off, PowerStateResult(Dis, On, b).1) == (0, Disabled(b))
    ensures PowerStateResult(Dis, On, PowerStateResult(Dis, Off, b).1) == (0, Enabled(b))
  {
    DisableAfterEnable(b);
    EnableAfterDisable(b);
  }

  /** Only the NVIDIA device's requests ever change the control byte. */
  lemma OnlyDiscreteGpuIsSwitched(vendor: u16, state: SwitcherooState, b: Byte)
    ensures PowerStateResult(GetClientId(vendor), state, b).1 != b ==> vendor == PCI_VENDOR_ID_NVIDIA
  {
  }

  /**
   `power_state(id, state)`: for the discrete GPU, "off" runs the disable
   sequence and "on" the enable sequence, both returning 0, and any other
   state is rejected with -EINVAL without touching the chip. Requests for any
   other client succeed without touching the chip.
   */
  method PowerState(ec: Ec, id: ClientId, state: SwitcherooState) returns (rc: int)
    modifies ec
    ensures (rc, ec.control) == PowerStateResult(id, state, old(ec.control))
    ensures id == Dis && state == Off ==>
      ec.log == old(ec.log) + DisableScript(old(ec.control)) &&
      ec.indexLow == None && ec.indexHigh == None
    ensures id == Dis && state == On ==>
      ec.log == old(ec.log) + EnableScript(old(ec.control)) &&
      ec.indexLow == None && ec.indexHigh == None
    ensures id != Dis || state == Other ==> unchanged(ec)
  {
    if id == Dis {
      match state
      case Off =>
        DgpuDisable(ec);
        rc := 0;
      case On =>
        DgpuEnable(ec);
        rc := 0;
      case Other =>
        rc := -EINVAL;
    } else {
      rc := 0;
    }
  }
}
