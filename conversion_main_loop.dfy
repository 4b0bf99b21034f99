/**
 * The conversion loop (src/server/conversion_main_loop.c): reads the
 * events of the physical device, converts relative motion into absolute
 * positions through the configuration's filter, retransmits everything
 * else, and zeroes the axes after an idle timeout.
 *
 * The loop works on the configuration of src/config/config_file.c, whose
 * filter it calls. What the loop meets is a parameter: one `Round` per
 * pass, while the run flag stays set, holds what the wait for the next
 * event sees and what the read of the next event gives. The virtual device
 * is a `Sink` recording what is written to it; writing an event and zeroing
 * the axes (src/relabsd_device.c) are not part of this model beyond that.
 */
module ConversionMainLoop {
  import opened Wrappers
  import opened Int32
  import opened Evdev
  import opened AxisName
  import opened Axis
  import opened AxisFilter
  import opened LegacyAxis
  import opened LegacyConfigFile

  /**
   * What `select` sees: data ready before the timeout, nothing before the
   * timeout, or a failure.
   */
  datatype WaitEnv = DataReady | Quiet | WaitError

  /** One pass of the loop: the wait and the event read (None when the read fails). */
  datatype Round = Round(wait: WaitEnv, read: Option<Event>)

  /** What reaches the virtual device: an event, or every enabled axis set to zero. */
  datatype Output = Emit(e: Event) | ZeroBurst

  /** The virtual device, as the loop writes to it. */
  class Sink {
    var written: seq<Output>

    constructor ()
      ensures written == []
    {
      written := [];
    }

    /** `relabsd_device_write_evdev_event`. */
    method WriteEvdevEvent(t: nat, c: nat, v: int)
      modifies this
      ensures written == old(written) + [Emit(Event(t, c, v))]
    {
      written := written + [Emit(Event(t, c, v))];
    }

    /** `relabsd_device_set_axes_to_zero`. */
    method SetAxesToZero()
      modifies this
      ensures written == old(written) + [ZeroBurst]
    {
      written := written + [ZeroBurst];
    }
  }

  /** Every record holds `int`s, as the filters require. */
  predicate ValidAxes(axes: seq<AxisState>)
  {
    forall i :: 0 <= i < |axes| ==> axes[i].Valid()
  }

  /** The events read carry `int` values. */
  predicate ValidRounds(rounds: seq<Round>)
  {
    forall i :: 0 <= i < |rounds| ==> rounds[i].read.Some? ==> IsInt32(rounds[i].read.value.value)
  }

  /**
   * `wait_for_next_event`: 1 when data is ready, 0 when the timeout expires
   * first, -1 on failure. While `timedOut` is set there is no timeout, so
   * `select` waits for data however long it takes.
   */
  function WaitResult(w: WaitEnv, timedOut: bool): (r: int)
    ensures -1 <= r <= 1
    ensures r == 0 <==> w == Quiet && !timedOut
    ensures r == -1 <==> w == WaitError
  {
    match w
    case DataReady => 1
    case Quiet => if timedOut then 1 else 0
    case WaitError => -1
  }

  /**
   * `handle_relative_axis_event` on the records: the outputs and the
   * records afterwards. At most one event is written: nothing when the
   * filter drops it, the original type and code when the filter passes it
   * through, or the axis's EV_ABS code when the filter emits it.
   */
  function RelEvent(axes: seq<AxisState>, e: Event): (r: (seq<Output>, seq<AxisState>))
    requires |axes| == AxesCount && ValidAxes(axes) && IsInt32(e.value)
    ensures |r.1| == AxesCount && ValidAxes(r.1)
  {
    var (a, abs) := ConvertEvdevRel(e.code, 0);
    if a == Unknown then ([Emit(e)], axes)
    else
      var k := Index(a);
      var f := Dispatch(axes[k], e.value);
      var axes' := axes[k := axes[k].(previousValue := f.previousValue)];
      if f.code == -1 then ([], axes')
      else if f.code == 0 then ([Emit(Event(e.evType, e.code, f.value))], axes')
      else ([Emit(Event(EV_ABS, abs, f.value))], axes')
  }

  /**
   * What `handle_relative_axis_event` writes, by the filter's code: an
   * unknown code is retransmitted as it is; otherwise only the axis's own
   * record changes, taking the filter's last value, and the event is dropped
   * (-1), retransmitted with the filtered value (0), or sent as the axis's
   * EV_ABS event (1).
   */
  lemma RelEventWrites(axes: seq<AxisState>, e: Event)
    requires |axes| == AxesCount && ValidAxes(axes) && IsInt32(e.value)
    ensures var a := ConvertEvdevRel(e.code, 0).0;
      a == Unknown ==> RelEvent(axes, e) == ([Emit(e)], axes)
    ensures var a := ConvertEvdevRel(e.code, 0).0;
      a != Unknown ==>
        var k := Index(a);
        var f := Dispatch(axes[k], e.value);
        var r := RelEvent(axes, e);
        IsLegacyAxis(a)
        && (forall j :: 0 <= j < AxesCount && j != k ==> r.1[j] == axes[j])
        && r.1[k] == axes[k].(previousValue := f.previousValue)
        && (f.code == -1 || f.code == 0 || f.code == 1)
        && (f.code == -1 ==> r.0 == [])
        && (f.code == 0 ==> r.0 == [Emit(Event(e.evType, e.code, f.value))])
        && (f.code == 1 ==> r.0 == [Emit(Event(EV_ABS, ToEvdevAbs(a), f.value))])
  {
    var a := ConvertEvdevRel(e.code, 0).0;
    if a != Unknown {
      assert ConvertEvdevRel(e.code, 0).1 == ToEvdevAbs(a);
    }
  }

  /** A disabled axis's event is retransmitted as it is, and its record is untouched. */
  lemma DisabledAxisPassesThrough(axes: seq<AxisState>, e: Event)
    requires |axes| == AxesCount && ValidAxes(axes) && IsInt32(e.value)
    requires var a := ConvertEvdevRel(e.code, 0).0; a != Unknown && !axes[Index(a)].isEnabled
    ensures RelEvent(axes, e) == ([Emit(e)], axes)
  {
    var a := ConvertEvdevRel(e.code, 0).0;
    var k := Index(a);
    assert axes[k := axes[k].(previousValue := axes[k].previousValue)] == axes;
  }

  /** `handle_relative_axis_event`. */
  method HandleRelativeAxisEvent(conf: Config, dev: Sink, inputType: nat, inputCode: nat, value: int)
    requires conf.Valid() && ValidAxes(States(conf.axes)) && IsInt32(value)
    modifies conf.axes, dev
    ensures var (out, axes') := RelEvent(old(States(conf.axes)), Event(inputType, inputCode, value));
      dev.written == old(dev.written) + out && States(conf.axes) == axes'
  {
    var (radCode, absCode) := ConvertEvdevRel(inputCode, 0);
    ghost var s0 := States(conf.axes);
    var code, value' := ConfigFilter(conf, radCode, value);
    ghost var r := RelEvent(s0, Event(inputType, inputCode, value));
    if radCode != Unknown {
      ghost var k := Index(radCode);
      ghost var f := Dispatch(s0[k], value);
      assert f == Filtered(code, value', conf.axes[k].previousValue);
      assert r.1 == States(conf.axes);
    }
    if code == 0 {
      dev.WriteEvdevEvent(inputType, inputCode, value');
    } else if code == 1 {
      dev.WriteEvdevEvent(EV_ABS, absCode, value');
    }
  }

  /** The read part of a pass: a failed read writes nothing; a relative event is converted; any other is retransmitted. */
  function ReadStep(axes: seq<AxisState>, read: Option<Event>): (r: (seq<Output>, seq<AxisState>))
    requires |axes| == AxesCount && ValidAxes(axes)
    requires read.Some? ==> IsInt32(read.value.value)
    ensures |r.1| == AxesCount && ValidAxes(r.1)
  {
    match read
    case None => ([], axes)
    case Some(e) => if e.evType == EV_REL then RelEvent(axes, e) else ([Emit(e)], axes)
  }

  /**
   * A read writes at most one event and never zeroes the axes; a failed
   * read writes nothing, and an event other than EV_REL is retransmitted.
   */
  lemma ReadStepWrites(axes: seq<AxisState>, read: Option<Event>)
    requires |axes| == AxesCount && ValidAxes(axes)
    requires read.Some? ==> IsInt32(read.value.value)
    ensures |ReadStep(axes, read).0| <= 1 && ZeroBurst !in ReadStep(axes, read).0
    ensures read.None? ==> ReadStep(axes, read) == ([], axes)
    ensures read.Some? && read.value.evType != EV_REL ==> ReadStep(axes, read) == ([Emit(read.value)], axes)
  {
    if read.Some? && read.value.evType == EV_REL {
      RelEventWrites(axes, read.value);
    }
  }

  /**
   * One pass of `convert_input`: with timeouts enabled, the wait first; a
   * failed wait ends the pass, an expired one zeroes the axes and sets the
   * timed-out flag, a successful one clears it. Then the read.
   */
  function RoundStep(axes: seq<AxisState>, enable: bool, timedOut: bool, r: Round): (s: (seq<Output>, seq<AxisState>, bool))
    requires |axes| == AxesCount && ValidAxes(axes)
    requires r.read.Some? ==> IsInt32(r.read.value.value)
    ensures |s.1| == AxesCount && ValidAxes(s.1)
  {
    if enable then
      var w := WaitResult(r.wait, timedOut);
      if w == -1 then ([], axes, timedOut)
      else
        var (out, axes') := ReadStep(axes, r.read);
        ((if w == 0 then [ZeroBurst] else []) + out, axes', w == 0)
    else
      var (out, axes') := ReadStep(axes, r.read);
      (out, axes', timedOut)
  }

  /**
   * A pass zeroes the axes exactly when timeouts are enabled and the wait
   * returns 0, writes nothing when the wait fails, and leaves the flag set
   * exactly when the wait returned 0 (unchanged when the wait failed or
   * timeouts are disabled).
   */
  lemma RoundStepBursts(axes: seq<AxisState>, enable: bool, timedOut: bool, r: Round)
    requires |axes| == AxesCount && ValidAxes(axes)
    requires r.read.Some? ==> IsInt32(r.read.value.value)
    ensures var s := RoundStep(axes, enable, timedOut, r);
      var w := WaitResult(r.wait, timedOut);
      (ZeroBurst in s.0 <==> enable && w == 0)
      && (enable && w == -1 ==> s == ([], axes, timedOut))
      && s.2 == (if enable && w != -1 then w == 0 else timedOut)
  {
    ReadStepWrites(axes, r.read);
  }

  /** The passes of `convert_input`: what each pass writes, and the records at the end. */
  function Run(axes: seq<AxisState>, enable: bool, timedOut: bool, rounds: seq<Round>): (r: (seq<seq<Output>>, seq<AxisState>))
    requires |axes| == AxesCount && ValidAxes(axes) && ValidRounds(rounds)
    ensures |r.0| == |rounds| && |r.1| == AxesCount && ValidAxes(r.1)
    decreases |rounds|
  {
    if rounds == [] then ([], axes)
    else
      var (out, axes', timedOut') := RoundStep(axes, enable, timedOut, rounds[0]);
      var rest := Run(axes', enable, timedOut', rounds[1..]);
      ([out] + rest.0, rest.1)
  }

  /** The outputs of the passes, in order. */
  function Flatten(trace: seq<seq<Output>>): seq<Output>
  {
    if trace == [] then [] else trace[0] + Flatten(trace[1..])
  }

  lemma {:induction false} FlattenAppend(trace: seq<seq<Output>>, out: seq<Output>)
    ensures Flatten(trace + [out]) == Flatten(trace) + out
    decreases |trace|
  {
    if trace == [] {
      assert [] + [out] == [out];
    } else {
      assert (trace + [out])[1..] == trace[1..] + [out];
      FlattenAppend(trace[1..], out);
    }
  }

  /** The read part of a pass of `convert_input`'s loop. */
  method HandleRead(conf: Config, dev: Sink, read: Option<Event>)
    requires conf.Valid() && ValidAxes(States(conf.axes))
    requires read.Some? ==> IsInt32(read.value.value)
    modifies conf.axes, dev
    ensures var (out, axes') := ReadStep(old(States(conf.axes)), read);
      dev.written == old(dev.written) + out && States(conf.axes) == axes'
  {
    if read.None? {
      return;
    }
    var event := read.value;
    if event.evType == EV_REL {
      HandleRelativeAxisEvent(conf, dev, event.evType, event.code, event.value);
    } else {
      dev.WriteEvdevEvent(event.evType, event.code, event.value);
    }
  }

  lemma AppendAssoc(a: seq<Output>, b: seq<Output>, c: seq<Output>)
    ensures (a + b) + c == a + (b + c)
  {
  }

  /**
   * One pass of `convert_input`'s loop; `enable` is the configuration's
   * `enable_timeout`, which nothing changes while the loop runs.
   */
  method ConvertRound(conf: Config, dev: Sink, enable: bool, r: Round, timedOut: bool) returns (timedOut': bool)
    requires conf.Valid() && ValidAxes(States(conf.axes))
    requires r.read.Some? ==> IsInt32(r.read.value.value)
    modifies conf.axes, dev
    ensures var step := RoundStep(old(States(conf.axes)), enable, timedOut, r);
      dev.written == old(dev.written) + step.0 && States(conf.axes) == step.1 && timedOut' == step.2
  {
    ghost var s0 := States(conf.axes);
    ghost var w0 := dev.written;
    timedOut' := timedOut;
    if enable {
      var w := WaitResult(r.wait, timedOut);
      if w == 1 {
        timedOut' := false;
      } else if w == 0 {
        dev.SetAxesToZero();
        timedOut' := true;
      } else {
        return;
      }
    }
    ghost var w1 := dev.written;
    HandleRead(conf, dev, r.read);
    ghost var step := ReadStep(s0, r.read);
    assert dev.written == w1 + step.0;
    assert States(conf.axes) == step.1;
  }

  /**
   * `convert_input`: the timed-out flag starts set, then one pass per
   * round; the device receives the passes' outputs in order.
   */
  method ConvertInput(conf: Config, dev: Sink, rounds: seq<Round>) returns (timedOut: bool)
    requires conf.Valid() && ValidAxes(States(conf.axes)) && ValidRounds(rounds)
    modifies conf.axes, dev
    ensures var (trace, axes') := Run(old(States(conf.axes)), old(conf.enableTimeout), true, rounds);
      dev.written == old(dev.written) + Flatten(trace) && States(conf.axes) == axes'
  {
    ghost var w0 := dev.written;
    ghost var done: seq<seq<Output>> := [];
    ghost var cur := States(conf.axes);
    var enable := conf.enableTimeout;
    ghost var total := Run(cur, enable, true, rounds);
    timedOut := true;
    var i := 0;
    ProgressStart(cur, enable, rounds);
    while i < |rounds|
      invariant Progress(total, done, cur, enable, timedOut, rounds, i)
      invariant cur == States(conf.axes)
      invariant dev.written == w0 + Flatten(done)
    {
      ghost var step := RoundStep(cur, enable, timedOut, rounds[i]);
      RunAdvance(total, done, cur, enable, timedOut, rounds, i);
      FlattenAppend(done, step.0);
      AppendAssoc(w0, Flatten(done), step.0);
      timedOut := ConvertRound(conf, dev, enable, rounds[i], timedOut);
      done := done + [step.0];
      cur := step.1;
      i := i + 1;
    }
    ProgressEnd(total, done, cur, enable, timedOut, rounds, i);
  }

  /**
   * `ConvertInput`'s loop invariant: the passes done so far wrote `done`,
   * and the remaining ones, from the records `axes` and the flag
   * `timedOut`, complete the whole run `total`.
   */
  ghost predicate Progress(total: (seq<seq<Output>>, seq<AxisState>), done: seq<seq<Output>>, axes: seq<AxisState>,
                           enable: bool, timedOut: bool, rounds: seq<Round>, i: nat)
  {
    i <= |rounds| && |axes| == AxesCount && ValidAxes(axes) && ValidRounds(rounds)
    && total.0 == done + Run(axes, enable, timedOut, rounds[i..]).0
    && total.1 == Run(axes, enable, timedOut, rounds[i..]).1
  }

  lemma ProgressStart(axes: seq<AxisState>, enable: bool, rounds: seq<Round>)
    requires |axes| == AxesCount && ValidAxes(axes) && ValidRounds(rounds)
    ensures Progress(Run(axes, enable, true, rounds), [], axes, enable, true, rounds, 0)
  {
    assert rounds[0..] == rounds;
    assert [] + Run(axes, enable, true, rounds).0 == Run(axes, enable, true, rounds).0;
  }

  lemma ProgressEnd(total: (seq<seq<Output>>, seq<AxisState>), done: seq<seq<Output>>, axes: seq<AxisState>,
                    enable: bool, timedOut: bool, rounds: seq<Round>, i: nat)
    requires Progress(total, done, axes, enable, timedOut, rounds, i) && i >= |rounds|
    ensures total == (done, axes)
  {
    assert rounds[i..] == [];
    assert done + [] == done;
  }

  /** The loop invariant of `ConvertInput` carried over one pass. */
  lemma RunAdvance(total: (seq<seq<Output>>, seq<AxisState>), done: seq<seq<Output>>, axes: seq<AxisState>,
                   enable: bool, timedOut: bool, rounds: seq<Round>, i: nat)
    requires Progress(total, done, axes, enable, timedOut, rounds, i) && i < |rounds|
    ensures var step := RoundStep(axes, enable, timedOut, rounds[i]);
      Progress(total, done + [step.0], step.1, enable, step.2, rounds, i + 1)
  {
    var step := RoundStep(axes, enable, timedOut, rounds[i]);
    var next := Run(step.1, enable, step.2, rounds[i + 1..]);
    RunUnfold(axes, enable, timedOut, rounds, i);
    assert done + ([step.0] + next.0) == (done + [step.0]) + next.0;
  }

  /** One pass, then the remaining ones. */
  lemma RunUnfold(axes: seq<AxisState>, enable: bool, timedOut: bool, rounds: seq<Round>, i: nat)
    requires |axes| == AxesCount && ValidAxes(axes) && ValidRounds(rounds) && i < |rounds|
    ensures var step := RoundStep(axes, enable, timedOut, rounds[i]);
      var next := Run(step.1, enable, step.2, rounds[i + 1..]);
      Run(axes, enable, timedOut, rounds[i..]) == ([step.0] + next.0, next.1)
  {
    assert rounds[i..][0] == rounds[i] && rounds[i..][1..] == rounds[i + 1..];
  }

  /** The waits of the passes. */
  function Waits(rounds: seq<Round>): (ws: seq<WaitEnv>)
    ensures |ws| == |rounds|
    ensures forall i :: 0 <= i < |rounds| ==> ws[i] == rounds[i].wait
  {
    seq(|rounds|, i requires 0 <= i < |rounds| => rounds[i].wait)
  }

  /** What each wait returns, the flag starting at `timedOut`. */
  function Results(timedOut: bool, ws: seq<WaitEnv>): (r: seq<int>)
    ensures |r| == |ws|
    decreases |ws|
  {
    if ws == [] then []
    else
      var w := WaitResult(ws[0], timedOut);
      [w] + Results(if w == -1 then timedOut else w == 0, ws[1..])
  }

  /**
   * A pass zeroes the axes exactly when timeouts are enabled and its wait
   * returns 0; a pass whose wait fails writes nothing.
   */
  lemma {:induction false} RunBursts(axes: seq<AxisState>, enable: bool, timedOut: bool, rounds: seq<Round>, i: nat)
    requires |axes| == AxesCount && ValidAxes(axes) && ValidRounds(rounds) && i < |rounds|
    ensures ZeroBurst in Run(axes, enable, timedOut, rounds).0[i]
            <==> enable && Results(timedOut, Waits(rounds))[i] == 0
    ensures enable && Results(timedOut, Waits(rounds))[i] == -1 ==> Run(axes, enable, timedOut, rounds).0[i] == []
    decreases i
  {
    var step := RoundStep(axes, enable, timedOut, rounds[0]);
    assert Waits(rounds)[1..] == Waits(rounds[1..]);
    if i == 0 {
      RoundStepBursts(axes, enable, timedOut, rounds[0]);
    } else {
      RunBursts(step.1, enable, step.2, rounds[1..], i - 1);
    }
  }

  /**
   * From a set flag, every wait that returns 0 comes after one that
   * returned 1: no zeroing before the first event.
   */
  lemma {:induction false} ZeroAfterData(ws: seq<WaitEnv>, j: nat)
    requires j < |ws| && Results(true, ws)[j] == 0
    ensures exists m :: 0 <= m < j && Results(true, ws)[m] == 1
    decreases j
  {
    var w := WaitResult(ws[0], true);
    assert w != 0;
    if w == -1 {
      ZeroAfterData(ws[1..], j - 1);
      var m :| 0 <= m < j - 1 && Results(true, ws[1..])[m] == 1;
      assert Results(true, ws)[m + 1] == 1;
    } else {
      assert Results(true, ws)[0] == 1;
    }
  }

  /** After a wait that returns 0 the flag is set again. */
  lemma {:induction false} ResultsAfterZero(t: bool, ws: seq<WaitEnv>, i: nat)
    requires i < |ws| && Results(t, ws)[i] == 0
    ensures Results(t, ws)[i + 1..] == Results(true, ws[i + 1..])
    decreases i
  {
    var w := WaitResult(ws[0], t);
    if i > 0 {
      ResultsAfterZero(if w == -1 then t else w == 0, ws[1..], i - 1);
      assert ws[1..][i..] == ws[i + 1..];
    }
  }

  /** Two zeroings of the axes have a wait that returned 1, an event, between them. */
  lemma ZeroesSeparatedByData(t: bool, ws: seq<WaitEnv>, i: nat, j: nat)
    requires i < j < |ws| && Results(t, ws)[i] == 0 && Results(t, ws)[j] == 0
    ensures exists m :: i < m < j && Results(t, ws)[m] == 1
  {
    ResultsAfterZero(t, ws, i);
    var suffix := ws[i + 1..];
    assert Results(true, suffix)[j - i - 1] == 0;
    ZeroAfterData(suffix, j - i - 1);
    var m :| 0 <= m < j - i - 1 && Results(true, suffix)[m] == 1;
    assert Results(t, ws)[i + 1 + m] == 1;
  }

  /** With timeouts disabled the axes are never zeroed. */
  lemma NoBurstWithoutTimeout(axes: seq<AxisState>, rounds: seq<Round>, i: nat)
    requires |axes| == AxesCount && ValidAxes(axes) && ValidRounds(rounds) && i < |rounds|
    ensures ZeroBurst !in Run(axes, false, true, rounds).0[i]
  {
    RunBursts(axes, false, true, rounds, i);
  }
}
