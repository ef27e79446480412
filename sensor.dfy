/** The autoranging TCS34725 driver object: the operating-point index, the cached
    per-point constants, and the raw, saturation and compensated fields that each
    measurement cycle overwrites. Bus reads arrive as method parameters. */
module Sensor {
  import opened Agc
  import opened Dn40

  class Tcs34725 {
    var isAvailable: bool
    var isSaturated: bool

    var rRaw: uint16
    var gRaw: uint16
    var bRaw: uint16
    var cRaw: uint16
    var ir: uint16
    var rComp: uint16
    var gComp: uint16
    var bComp: uint16
    var cComp: uint16
    var saturation: uint16
    var saturation75: uint16

    // Constants cached for the current operating point.
    var againx: uint16
    var atime: uint16
    var atimeMs: uint16
    // Index of the current row of Table.
    var agcCur: uint16

    /** The index selects a row, and the cached ATIME came from an 8-bit register value. */
    ghost predicate Valid()
      reads this
    {
      agcCur < |Table| && atime < 0x100
    }

    /** The cached constants are those of the current row. */
    ghost predicate Synced()
      reads this
      requires Valid()
    {
      var row := Table[agcCur];
      atime == row.atime && atimeMs == AtimeMs(row.atime) && againx == GainMultiplier(row.again)
    }

    function Raw(): (v: Rgbc)
      reads this
    {
      Rgbc(rRaw, gRaw, bRaw, cRaw)
    }

    function Comp(): (v: Rgbc)
      reads this
    {
      Rgbc(rComp, gComp, bComp, cComp)
    }

    /** Fields outside the initialiser list start at zero, as for an object of
        static storage duration. */
    constructor ()
      ensures Valid()
      ensures agcCur == DefaultIndex && !isAvailable && !isSaturated
    {
      isAvailable, isSaturated := false, false;
      rRaw, gRaw, bRaw, cRaw, ir := 0, 0, 0, 0, 0;
      rComp, gComp, bComp, cComp := 0, 0, 0, 0;
      saturation, saturation75 := 0, 0;
      againx, atime, atimeMs := 0, 0, 0;
      agcCur := DefaultIndex;
    }

    /** Probes the device (`present` is the bus driver's answer); when it is there,
        programs and caches the current operating point. */
    method Begin(present: bool) returns (available: bool)
      requires Valid()
      modifies this`isAvailable, this`atime, this`atimeMs, this`againx
      ensures Valid()
      ensures available == present && isAvailable == present
      ensures present ==> Synced()
      ensures !present ==> atime == old(atime) && atimeMs == old(atimeMs) && againx == old(againx)
    {
      isAvailable := present;
      if isAvailable {
        SetGainTime();
      }
      available := isAvailable;
    }

    /** Programs the current row's gain and integration time into the device and
        caches the step duration and the gain multiplier. */
    method SetGainTime()
      requires Valid()
      modifies this`atime, this`atimeMs, this`againx
      ensures Valid() && Synced()
    {
      var row := Table[agcCur];
      atime := row.atime;
      atimeMs := Wrap16(((256 - atime) * 24) / 10);
      match row.again {
        case Gain1X => againx := 1;
        case Gain4X => againx := 4;
        case Gain16X => againx := 16;
        case Gain60X => againx := 60;
      }
    }

    /** Reads the channels (`first`) and moves one row when the clear count is out
        of the row's window. On a move the device is reprogrammed; in interrupt
        mode (`noDelay`) the sample is then rejected, in polled mode the channels
        are read once more (`reread`) and accepted without a second check. */
    method Autorange(noDelay: bool, first: Rgbc, reread: Rgbc) returns (accepted: bool)
      requires Valid()
      modifies this`rRaw, this`gRaw, this`bRaw, this`cRaw
      modifies this`agcCur, this`atime, this`atimeMs, this`againx
      ensures Valid()
      ensures agcCur == Next(Table, old(agcCur), first.c)
      ensures accepted == !(agcCur != old(agcCur) && noDelay)
      ensures Raw() == if agcCur != old(agcCur) && !noDelay then reread else first
      ensures agcCur != old(agcCur) ==> Synced()
      ensures agcCur == old(agcCur) ==> atime == old(atime) && atimeMs == old(atimeMs) && againx == old(againx)
    {
      rRaw, gRaw, bRaw, cRaw := first.r, first.g, first.b, first.c;
      var row := Table[agcCur];
      if row.maxcnt != 0 && cRaw > row.maxcnt {
        agcCur := agcCur + 1;
      } else if row.mincnt != 0 && cRaw < row.mincnt {
        agcCur := agcCur - 1;
      } else {
        return true;
      }
      SetGainTime();
      if noDelay {
        return false;
      }
      rRaw, gRaw, bRaw, cRaw := reread.r, reread.g, reread.b, reread.c;
      return true;
    }

    /** One measurement cycle: autorange, then the saturation check, then the IR
        estimate and the compensated channels. Returns true only for a sample that
        autoranging accepted and that is not saturated. */
    method UpdateData(noDelay: bool, first: Rgbc, reread: Rgbc) returns (valid: bool)
      requires Valid()
      modifies this`rRaw, this`gRaw, this`bRaw, this`cRaw
      modifies this`agcCur, this`atime, this`atimeMs, this`againx
      modifies this`saturation, this`saturation75, this`isSaturated
      modifies this`ir, this`rComp, this`gComp, this`bComp, this`cComp
      ensures Valid()
      ensures agcCur == Next(Table, old(agcCur), first.c)
      ensures Raw() == if agcCur != old(agcCur) && !noDelay then reread else first
      ensures agcCur != old(agcCur) ==> Synced()
      ensures agcCur == old(agcCur) ==> atime == old(atime) && atimeMs == old(atimeMs) && againx == old(againx)
      // Rejected by autoranging: nothing of the DN40 state changes.
      ensures agcCur != old(agcCur) && noDelay ==>
                !valid && saturation == old(saturation) && saturation75 == old(saturation75) &&
                isSaturated == old(isSaturated) && ir == old(ir) && Comp() == old(Comp())
      // Accepted: the saturation state is recomputed from the cached operating point.
      ensures !(agcCur != old(agcCur) && noDelay) ==>
                saturation == Ceiling(256 - atime) &&
                saturation75 == RippleCeiling(saturation, atimeMs) &&
                isSaturated == Saturated(cRaw, saturation75, atimeMs) &&
                valid == !isSaturated
      ensures valid ==> ir == Ir(Raw()) && Comp() == CompensateAll(Raw(), ir)
      ensures !valid ==> ir == old(ir) && Comp() == old(Comp())
    {
      var accepted := Autorange(noDelay, first, reread);
      if !accepted {
        return false;
      }
      saturation := Ceiling(256 - atime);
      saturation75 := RippleCeiling(saturation, atimeMs);
      isSaturated := Saturated(cRaw, saturation75, atimeMs);
      if isSaturated {
        return false;
      }
      ir := Ir(Raw());
      rComp := Compensate(rRaw, ir);
      gComp := Compensate(gRaw, ir);
      bComp := Compensate(bRaw, ir);
      cComp := Compensate(cRaw, ir);
      return true;
    }
  }

  /** While the cached constants are in sync, the cached gain multiplier
      identifies the current row's gain setting. */
  lemma CachedGainIdentifiesGain(s: Tcs34725, g: Gain)
    requires s.Valid() && s.Synced()
    ensures s.againx == GainMultiplier(g) <==> g == Table[s.agcCur].again
  {
    GainMultiplierInjective(g, Table[s.agcCur].again);
  }

  /** Polled mode from the default row under a bright clear count of 64000: one
      move to the last row, a re-read, and an accepted, unsaturated sample; with
      R+G+B not above C there is no IR estimate and the compensated channels equal
      the re-read ones. */
  method PolledBrightScenario() returns (valid: bool, index: int, comp: Rgbc)
    ensures valid && index == DefaultIndex + 1
    ensures comp == Rgbc(5000, 6000, 4000, 20000)
  {
    var s := new Tcs34725();
    var ok := s.Begin(true);
    valid := s.UpdateData(false, Rgbc(30000, 30000, 30000, 64000), Rgbc(5000, 6000, 4000, 20000));
    index := s.agcCur;
    comp := s.Comp();
  }

  /** Interrupt mode from the default row: the first, too bright, sample is
      rejected with a move; the next one, within the new row's window, is valid. */
  method InterruptModeScenario() returns (first: bool, second: bool, index: int)
    ensures !first && second && index == DefaultIndex + 1
  {
    var s := new Tcs34725();
    var ok := s.Begin(true);
    first := s.UpdateData(true, Rgbc(30000, 30000, 30000, 64000), Rgbc(0, 0, 0, 0));
    second := s.UpdateData(true, Rgbc(5000, 6000, 4000, 20000), Rgbc(0, 0, 0, 0));
    index := s.agcCur;
  }
}
