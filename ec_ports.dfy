/**
 The PMH7 as the driver sees it through port I/O: an index window (two index
 ports and a data port) over the DGPU control byte, and a log of every port
 access and settle delay the driver performs, in order.

 The index is not sticky: every data-port access uses up the selection, so the
 next access must write both index bytes again. Only the DGPU control byte is
 held here; a data-port access is allowed only while that byte is selected.
 */
module EcPorts {
  import opened Pmh7

  datatype Option<T> = None | Some(value: T)

  /** One step of the driver's interaction with the chip, as the log records it. */
  datatype Access =
    | Out(port: int, value: Byte)           // outb(value, port)
    | In(port: int, value: Byte)            // inb(port) returned value
    | SleepRange(minUs: nat, maxUs: nat)   // usleep_range(minUs, maxUs)
    | SleepMs(ms: nat)                     // msleep(ms)
  {
    /** A read or write of the data port. */
    predicate IsDataAccess() {
      (Out? || In?) && port == DATA
    }
  }

  /** Writing the DGPU control byte's index: low byte first, then high byte. */
  function Select(): (t: seq<Access>)
    ensures |t| == 2 && !t[0].IsDataAccess() && !t[1].IsDataAccess()
    ensures DataWrites(t) == []
  {
    DataWritesSnoc([Out(ADDR_L, DGPU_L)], Out(ADDR_H, DGPU_H));
    [Out(ADDR_L, DGPU_L), Out(ADDR_H, DGPU_H)]
  }

  /**
   Every data-port access in `t` is immediately preceded by writing the DGPU
   control byte's index, low byte then high byte.
   */
  ghost predicate Disciplined(t: seq<Access>)
  {
    forall i :: 0 <= i < |t| && t[i].IsDataAccess() ==> 2 <= i && t[i - 2 .. i] == Select()
  }

  /** Disciplined logs stay disciplined when concatenated. */
  lemma DisciplinedAppend(a: seq<Access>, b: seq<Access>)
    requires Disciplined(a) && Disciplined(b)
    ensures Disciplined(a + b)
  {
  }

  /** The byte one access writes to the data port, if it writes one. */
  function Written(a: Access): (w: seq<Byte>)
    ensures |w| <= 1
  {
    if a.Out? && a.port == DATA then [a.value] else []
  }

  /** The bytes written to the data port, in the order written. */
  function DataWrites(t: seq<Access>): (w: seq<Byte>)
    ensures |w| <= |t|
  {
    if t == [] then [] else Written(t[0]) + DataWrites(t[1..])
  }

  /** The data-port writes of a concatenation are those of each part, in order. */
  lemma {:induction false} DataWritesAppend(a: seq<Access>, b: seq<Access>)
    ensures DataWrites(a + b) == DataWrites(a) + DataWrites(b)
  {
    if a == [] {
      assert a + b == b;
    } else {
      assert (a + b)[1..] == a[1..] + b;
      DataWritesAppend(a[1..], b);
    }
  }

  /** Appending one access adds the byte it writes, if any. */
  lemma DataWritesSnoc(t: seq<Access>, a: Access)
    ensures DataWrites(t + [a]) == DataWrites(t) + Written(a)
  {
    DataWritesAppend(t, [a]);
    assert [a][1..] == [];
  }

  /** A settle delay touches no port. */
  lemma DelayShape(d: Access)
    requires d.SleepRange? || d.SleepMs?
    ensures Disciplined([d]) && DataWrites([d]) == []
  {
  }

  /** Two disciplined logs joined are disciplined, and their data writes are joined too. */
  lemma JoinScripts(a: seq<Access>, b: seq<Access>)
    requires Disciplined(a) && Disciplined(b)
    ensures Disciplined(a + b)
    ensures DataWrites(a + b) == DataWrites(a) + DataWrites(b)
  {
    DisciplinedAppend(a, b);
    DataWritesAppend(a, b);
  }

  /** The PMH7 DGPU control byte behind its index window. */
  class Ec {
    var control: Byte            // the DGPU control byte
    var indexLow: Option<Byte>   // index low byte written since the last data-port access
    var indexHigh: Option<Byte>  // index high byte written since the last data-port access
    ghost var log: seq<Access>  // every access and delay so far

    /** The next data-port access reaches the DGPU control byte. */
    predicate Selected()
      reads this
    {
      indexLow == Some(DGPU_L) && indexHigh == Some(DGPU_H)
    }

    constructor (initial: Byte)
      ensures control == initial && indexLow == None && indexHigh == None && log == []
    {
      control := initial;
      indexLow, indexHigh := None, None;
      log := [];
    }

    /** `outb(value, port)`. A write of the data port stores the byte and ends the selection. */
    method Outb(value: Byte, port: int)
      requires port == ADDR_L || port == ADDR_H || (port == DATA && Selected())
      modifies this
      ensures log == old(log) + [Out(port, value)]
      ensures port == ADDR_L ==>
        indexLow == Some(value) && indexHigh == old(indexHigh) && control == old(control)
      ensures port == ADDR_H ==>
        indexHigh == Some(value) && indexLow == old(indexLow) && control == old(control)
      ensures port == DATA ==> control == value && indexLow == None && indexHigh == None
    {
      if port == ADDR_L {
        indexLow := Some(value);
      } else if port == ADDR_H {
        indexHigh := Some(value);
      } else {
        control := value;
        indexLow, indexHigh := None, None;
      }
      log := log + [Out(port, value)];
    }

    /** `inb(port)` of the data port: the selected byte, unchanged. The read ends the selection. */
    method Inb(port: int) returns (value: Byte)
      requires port == DATA && Selected()
      modifies this
      ensures value == control && control == old(control)
      ensures indexLow == None && indexHigh == None
      ensures log == old(log) + [In(port, value)]
    {
      value := control;
      indexLow, indexHigh := None, None;
      log := log + [In(port, value)];
    }

    /** `usleep_range(minUs, maxUs)`: only its place in the log is kept. */
    method UsleepRange(minUs: nat, maxUs: nat)
      requires minUs <= maxUs
      modifies this`log
      ensures log == old(log) + [SleepRange(minUs, maxUs)]
    {
      log := log + [SleepRange(minUs, maxUs)];
    }

    /** `msleep(ms)`: only its place in the log is kept. */
    method Msleep(ms: nat)
      modifies this`log
      ensures log == old(log) + [SleepMs(ms)]
    {
      log := log + [SleepMs(ms)];
    }
  }
}
