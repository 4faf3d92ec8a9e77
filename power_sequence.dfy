/**
 The two fixed power sequences of the discrete GPU rail. Each is a script of
 pokes on the commit bit (7) and the power bit (3) with settle delays between
 them. The commit bit is dropped before the power bit changes; only the enable
 sequence raises it again, once the power bit is set.
 */
module PowerSequence {
  import opened Pmh7
  import opened EcPorts
  import opened RegisterBackend

  /**
   The control byte after the disable sequence, from byte `b`: the commit and
   power bits clear, every other bit as it was.
   */
  function Disabled(b: Byte): (r: Byte)
    ensures !Bit(r, WRITE_BIT) && !Bit(r, POWER_BIT)
    ensures SameOutside(b, r, {WRITE_BIT, POWER_BIT})
  {
    Poked(Poked(b, WRITE_BIT, false), POWER_BIT, false)
  }

  /**
   The control byte after the enable sequence, from byte `b`: the commit and
   power bits set, every other bit as it was.
   */
  function Enabled(b: Byte): (r: Byte)
    ensures Bit(r, WRITE_BIT) && Bit(r, POWER_BIT)
    ensures SameOutside(b, r, {WRITE_BIT, POWER_BIT})
  {
    Poked(Poked(Poked(b, WRITE_BIT, false), POWER_BIT, true), WRITE_BIT, true)
  }

  /** Disabling after enabling gives the byte that disabling alone gives. */
  lemma DisableAfterEnable(b: Byte)
    ensures Disabled(Enabled(b)) == Disabled(b)
  {
  }

  /** Enabling after disabling gives the byte that enabling alone gives. */
  lemma EnableAfterDisable(b: Byte)
    ensures Enabled(Disabled(b)) == Enabled(b)
  {
  }

  /**
   The accesses and delays of `dgpu_disable` when the control byte holds `b`.
   The byte is selected before every data-port access, and the data-port
   writes are the commit-cleared byte and then the power-cleared byte.
   */
  function DisableScript(b: Byte): (t: seq<Access>)
    ensures Disciplined(t)
    ensures DataWrites(t) == [Poked(b, WRITE_BIT, false), Disabled(b)]
  {
    var b1 := Poked(b, WRITE_BIT, false);
    var b2 := Poked(b1, POWER_BIT, false);
    var p1, p2 := PokeScript(b, b1), PokeScript(b1, b2);
    var d1, d2: seq<Access> := [SleepRange(1000, 2000)], [SleepMs(100)];
    DelayShape(d1[0]);
    DelayShape(d2[0]);
    JoinScripts(p1, d1);
    JoinScripts(p1 + d1, p2);
    JoinScripts(p1 + d1 + p2, d2);
    p1 + d1 + p2 + d2
  }

  /**
   The accesses and delays of `dgpu_enable` when the control byte holds `b`.
   The byte is selected before every data-port access, and the data-port
   writes are the commit-cleared byte, then the power-set byte, then the
   commit-set byte.
   */
  function EnableScript(b: Byte): (t: seq<Access>)
    ensures Disciplined(t)
    ensures DataWrites(t) ==
      [Poked(b, WRITE_BIT, false), Poked(Poked(b, WRITE_BIT, false), POWER_BIT, true), Enabled(b)]
  {
    var b1 := Poked(b, WRITE_BIT, false);
    var b2 := Poked(b1, POWER_BIT, true);
    var b3 := Poked(b2, WRITE_BIT, true);
    var p1, p2, p3 := PokeScript(b, b1), PokeScript(b1, b2), PokeScript(b2, b3);
    var d1, d2: seq<Access> := [SleepRange(10000, 20000)], [SleepMs(100)];
    DelayShape(d1[0]);
    DelayShape(d2[0]);
    JoinScripts(p1, p2);
    JoinScripts(p1 + p2, d1);
    JoinScripts(p1 + p2 + d1, p3);
    JoinScripts(p1 + p2 + d1 + p3, d2);
    p1 + p2 + d1 + p3 + d2
  }

  /**
   The two-phase commit discipline over the successive values `s` of the
   control byte, towards the power state `target`: the power bit changes only
   while the commit bit is clear before and after the change; the commit bit
   rises only once the power bit already holds `target`; and the last value has
   both bits equal to `target`.
   */
  ghost predicate TwoPhaseCommit(s: seq<Byte>, target: bool)
  {
    && |s| > 0
    && (forall i :: 0 <= i < |s| - 1 && Bit(s[i], POWER_BIT) != Bit(s[i + 1], POWER_BIT) ==>
          !Bit(s[i], WRITE_BIT) && !Bit(s[i + 1], WRITE_BIT))
    && (forall i :: 0 <= i < |s| - 1 && !Bit(s[i], WRITE_BIT) && Bit(s[i + 1], WRITE_BIT) ==>
          Bit(s[i], POWER_BIT) == target)
    && Bit(s[|s| - 1], POWER_BIT) == target
    && Bit(s[|s| - 1], WRITE_BIT) == target
  }

  /**
   The bytes the disable script writes, after the byte it starts from, keep
   the two-phase commit discipline towards "off": the commit bit is dropped
   before the power bit is cleared, and both end clear.
   */
  lemma DisableProtocol(b: Byte)
    ensures TwoPhaseCommit([b] + DataWrites(DisableScript(b)), false)
  {
  }

  /**
   The bytes the enable script writes, after the byte it starts from, keep the
   two-phase commit discipline towards "on": the commit bit is clear while the
   power bit rises, rises only after it, and both end set.
   */
  lemma EnableProtocol(b: Byte)
    ensures TwoPhaseCommit([b] + DataWrites(EnableScript(b)), true)
  {
  }

  /**
   The disable steps, run from control byte `b` and log `before`, leave the
   byte `Disabled(b)` and log exactly the disable script.
   */
  lemma DisableRun(b: Byte, b1: Byte, b2: Byte, before: seq<Access>, log: seq<Access>)
    requires b1 == Poked(b, WRITE_BIT, false) && b2 == Poked(b1, POWER_BIT, false)
    requires log == before + PokeScript(b, b1) + [SleepRange(1000, 2000)] + PokeScript(b1, b2) + [SleepMs(100)]
    ensures b2 == Disabled(b)
    ensures log == before + DisableScript(b)
    ensures Disciplined(log[|before|..])
    ensures TwoPhaseCommit([b] + DataWrites(log[|before|..]), false)
  {
    assert log[|before|..] == DisableScript(b);
    DisableProtocol(b);
  }

  /**
   The enable steps, run from control byte `b` and log `before`, leave the
   byte `Enabled(b)` and log exactly the enable script.
   */
  lemma EnableRun(b: Byte, b1: Byte, b2: Byte, b3: Byte, before: seq<Access>, log: seq<Access>)
    requires b1 == Poked(b, WRITE_BIT, false) && b2 == Poked(b1, POWER_BIT, true)
    requires b3 == Poked(b2, WRITE_BIT, true)
    requires log == before + PokeScript(b, b1) + PokeScript(b1, b2) + [SleepRange(10000, 20000)]
      + PokeScript(b2, b3) + [SleepMs(100)]
    ensures b3 == Enabled(b)
    ensures log == before + EnableScript(b)
    ensures Disciplined(log[|before|..])
    ensures TwoPhaseCommit([b] + DataWrites(log[|before|..]), true)
  {
    assert log[|before|..] == EnableScript(b);
    EnableProtocol(b);
  }

  /**
   `dgpu_disable`: drop the commit bit, settle 1-2 ms, clear the power bit,
   settle 100 ms. Both bits end clear and the other six bits are kept.
   */
  method DgpuDisable(ec: Ec)
    modifies ec
    ensures ec.control == Disabled(old(ec.control))
    ensures !Bit(ec.control, WRITE_BIT) && !Bit(ec.control, POWER_BIT)
    ensures SameOutside(old(ec.control), ec.control, {WRITE_BIT, POWER_BIT})
    ensures ec.indexLow == None && ec.indexHigh == None
    ensures ec.log == old(ec.log) + DisableScript(old(ec.control))
    ensures Disciplined(ec.log[|old(ec.log)|..])
    ensures TwoPhaseCommit([old(ec.control)] + DataWrites(ec.log[|old(ec.log)|..]), false)
  {
    ghost var b, before := ec.control, ec.log;
    RawPoke(ec, WRITE_BIT, 0);
    ghost var b1 := ec.control;
    ec.UsleepRange(1000, 2000);
    RawPoke(ec, POWER_BIT, 0);
    ec.Msleep(100);
    DisableRun(b, b1, ec.control, before, ec.log);
  }

  /**
   `dgpu_enable`: drop the commit bit, set the power bit, settle 10-20 ms,
   raise the commit bit, settle 100 ms. Both bits end set and the other six
   bits are kept.
   */
  method DgpuEnable(ec: Ec)
    modifies ec
    ensures ec.control == Enabled(old(ec.control))
    ensures Bit(ec.control, WRITE_BIT) && Bit(ec.control, POWER_BIT)
    ensures SameOutside(old(ec.control), ec.control, {WRITE_BIT, POWER_BIT})
    ensures ec.indexLow == None && ec.indexHigh == None
    ensures ec.log == old(ec.log) + EnableScript(old(ec.control))
    ensures Disciplined(ec.log[|old(ec.log)|..])
    ensures TwoPhaseCommit([old(ec.control)] + DataWrites(ec.log[|old(ec.log)|..]), true)
  {
    ghost var b, before := ec.control, ec.log;
    RawPoke(ec, WRITE_BIT, 0);
    ghost var b1 := ec.control;
    RawPoke(ec, POWER_BIT, 1);
    ghost var b2 := ec.control;
    ec.UsleepRange(10000, 20000);
    RawPoke(ec, WRITE_BIT, 1);
    ec.Msleep(100);
    EnableRun(b, b1, b2, ec.control, before, ec.log);
  }
}
