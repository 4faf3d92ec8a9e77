/**
 The raw backend: single-bit reads and read-modify-write updates of the DGPU
 control byte through the PMH7's index window.
 */
module RegisterBackend {
  import opened Pmh7
  import opened EcPorts

  /** The accesses `raw_peek` makes when the control byte holds `b`. */
  function PeekScript(b: Byte): (t: seq<Access>)
    ensures Disciplined(t) && DataWrites(t) == []
  {
    DataWritesSnoc(Select(), In(DATA, b));
    Select() + [In(DATA, b)]
  }

  /**
   The accesses of a read-modify-write that reads `b` and writes back `w`. It
   selects the byte before each of its two data-port accesses, and its one
   data-port write is the byte written back.
   */
  function PokeScript(b: Byte, w: Byte): (t: seq<Access>)
    ensures Disciplined(t) && DataWrites(t) == [w]
  {
    var read := PeekScript(b);
    DataWritesAppend(read, Select());
    DataWritesSnoc(read + Select(), Out(DATA, w));
    DisciplinedAppend(read, Select() + [Out(DATA, w)]);
    assert read + (Select() + [Out(DATA, w)]) == read + Select() + [Out(DATA, w)];
    read + Select() + [Out(DATA, w)]
  }

  /**
   `raw_peek(bit)`: reports whether `bit` is set in the control byte and leaves
   the byte as it was.
   */
  method RawPeek(ec: Ec, bit: nat) returns (isSet: bool)
    requires bit < 31
    modifies ec
    ensures isSet == Peeked(old(ec.control), bit)
    ensures isSet <==> bit < 8 && Bit(old(ec.control), bit)
    ensures ec.control == old(ec.control)
    ensures ec.indexLow == None && ec.indexHigh == None
    ensures ec.log == old(ec.log) + PeekScript(old(ec.control))
  {
    ec.Outb(DGPU_L, ADDR_L);
    ec.Outb(DGPU_H, ADDR_H);
    var result := ec.Inb(DATA);
    result := And(result, Mask(bit));
    isSet := result != ZERO;
  }

  /**
   `raw_poke(bit, on)`: forces `bit` of the control byte to `on != 0` and keeps
   every other bit, re-selecting the byte before writing it back.
   */
  method RawPoke(ec: Ec, bit: nat, on: int)
    requires bit < 31
    modifies ec
    ensures ec.control == Poked(old(ec.control), bit, on != 0)
    ensures ec.indexLow == None && ec.indexHigh == None
    ensures ec.log == old(ec.log) + PokeScript(old(ec.control), ec.control)
  {
    ec.Outb(DGPU_L, ADDR_L);
    ec.Outb(DGPU_H, ADDR_H);
    var result := ec.Inb(DATA);
    var mask := Mask(bit);
    if on != 0 {
      result := Or(result, mask);
    } else {
      result := AndNot(result, mask);
    }
    ec.Outb(DGPU_L, ADDR_L);
    ec.Outb(DGPU_H, ADDR_H);
    ec.Outb(result, DATA);
  }
}
