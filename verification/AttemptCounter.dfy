/** The in-process sliding-window failure counter, and the unpruned history it
    stands for. */
module AttemptCounter {
  type Key = string

  /** Counter state: for each key the failure times not pruned yet. */
  type Logs = map<Key, seq<int>>

  function At(logs: Logs, key: Key): seq<int> {
    if key in logs then logs[key] else []
  }

  /** The times strictly after `cutoff`, in order. */
  function After(times: seq<int>, cutoff: int): seq<int> {
    if times == [] then []
    else if times[0] > cutoff then [times[0]] + After(times[1..], cutoff)
    else After(times[1..], cutoff)
  }

  /** prune */
  method Prune(times: seq<int>, now: int, window: int) returns (kept: seq<int>)
    ensures kept == After(times, now - window)
  {
    var cutoff := now - window;
    kept := [];
    for i := 0 to |times|
      invariant kept == After(times[..i], cutoff)
    {
      AfterSnoc(times[..i], times[i], cutoff);
      assert times[..i + 1] == times[..i] + [times[i]];
      if times[i] > cutoff {
        kept := kept + [times[i]];
      }
    }
    assert times[..|times|] == times;
  }

  lemma {:induction false} AfterSnoc(times: seq<int>, t: int, cutoff: int)
    ensures After(times + [t], cutoff) == After(times, cutoff) + (if t > cutoff then [t] else [])
  {
    if times != [] {
      assert (times + [t])[1..] == times[1..] + [t];
      AfterSnoc(times[1..], t, cutoff);
    } else {
      assert times + [t] == [t];
    }
  }

  /** Pruning at an earlier cutoff first changes nothing. */
  lemma {:induction false} AfterAfter(times: seq<int>, early: int, late: int)
    requires early <= late
    ensures After(After(times, early), late) == After(times, late)
  {
    if times != [] {
      AfterAfter(times[1..], early, late);
      if times[0] > early {
        assert After(times, early)[1..] == After(times[1..], early);
      }
    }
  }

  // ---- The operations on values

  function FailLogs(logs: Logs, key: Key, now: int, window: int): Logs {
    logs[key := After(At(logs, key), now - window) + [now]]
  }

  function CountLogs(logs: Logs, key: Key, now: int, window: int): Logs {
    logs[key := After(At(logs, key), now - window)]
  }

  function ResetLogs(logs: Logs, key: Key): Logs {
    logs - {key}
  }

  datatype Op =
    | Fail(key: Key, now: int, window: int)
    | Count(key: Key, now: int, window: int)
    | Reset(key: Key)

  function Apply(logs: Logs, op: Op): Logs {
    match op
    case Fail(key, now, window) => FailLogs(logs, key, now, window)
    case Count(key, now, window) => CountLogs(logs, key, now, window)
    case Reset(key) => ResetLogs(logs, key)
  }

  /** What a caller is told; a reset tells nothing. */
  function Answer(logs: Logs, op: Op): nat {
    if op.Reset? then 0 else |At(Apply(logs, op), op.key)|
  }

  function Run(logs: Logs, ops: seq<Op>): Logs
    decreases |ops|
  {
    if ops == [] then logs else Run(Apply(logs, ops[0]), ops[1..])
  }

  // ---- The unpruned history

  function Remember(past: seq<int>, key: Key, op: Op): seq<int> {
    if op.key != key then past
    else match op
      case Fail(_, now, _) => past + [now]
      case Count(_, _, _) => past
      case Reset(_) => []
  }

  /** Every failure of `key` since its last reset. */
  function Failures(past: seq<int>, key: Key, ops: seq<Op>): seq<int>
    decreases |ops|
  {
    if ops == [] then past else Failures(Remember(past, key, ops[0]), key, ops[1..])
  }

  /** The operations use the clock in order and one window per key. */
  ghost predicate Orderly(ops: seq<Op>, start: int, windows: Key -> int)
    decreases |ops|
  {
    ops == [] ||
    if ops[0].Reset? then Orderly(ops[1..], start, windows)
    else ops[0].now >= start && ops[0].window == windows(ops[0].key) && Orderly(ops[1..], ops[0].now, windows)
  }

  /** `log` and `past` hold the same failures as far as any window that ends at
      `clock` or later can see. */
  ghost predicate Agree(log: seq<int>, past: seq<int>, clock: int, window: int) {
    forall cutoff :: cutoff >= clock - window ==> After(log, cutoff) == After(past, cutoff)
  }

  lemma AgreeFail(log: seq<int>, past: seq<int>, clock: int, window: int, now: int)
    requires Agree(log, past, clock, window) && now >= clock
    ensures Agree(After(log, now - window) + [now], past + [now], now, window)
  {
    forall cutoff | cutoff >= now - window
      ensures After(After(log, now - window) + [now], cutoff) == After(past + [now], cutoff)
    {
      AfterSnoc(After(log, now - window), now, cutoff);
      AfterSnoc(past, now, cutoff);
      AfterAfter(log, now - window, cutoff);
    }
  }

  lemma AgreeCount(log: seq<int>, past: seq<int>, clock: int, window: int, now: int)
    requires Agree(log, past, clock, window) && now >= clock
    ensures Agree(After(log, now - window), past, now, window)
  {
    forall cutoff | cutoff >= now - window
      ensures After(After(log, now - window), cutoff) == After(past, cutoff)
    {
      AfterAfter(log, now - window, cutoff);
    }
  }

  /** Whatever the other keys do, a key's pruned log keeps agreeing with its
      history. */
  lemma {:induction false} RunAgrees(logs: Logs, past: seq<int>, key: Key, ops: seq<Op>, clock: int,
                                     windows: Key -> int) returns (end: int)
    requires Orderly(ops, clock, windows) && Agree(At(logs, key), past, clock, windows(key))
    ensures clock <= end && (forall op :: op in ops && !op.Reset? ==> op.now <= end)
    ensures Agree(At(Run(logs, ops), key), Failures(past, key, ops), end, windows(key))
    ensures forall later :: Orderly(ops + [later], clock, windows) && !later.Reset? ==> later.now >= end
    decreases |ops|
  {
    if ops == [] {
      end := clock;
      forall later | Orderly(ops + [later], clock, windows) && !later.Reset? ensures later.now >= end {
        assert (ops + [later])[0] == later;
      }
    } else {
      var op := ops[0];
      var next := Apply(logs, op);
      var at := if op.Reset? then clock else op.now;
      var past' := Remember(past, key, op);
      if op.key == key {
        match op
        case Fail(_, now, window) => AgreeFail(At(logs, key), past, clock, window, now);
        case Count(_, now, window) => AgreeCount(At(logs, key), past, clock, window, now);
        case Reset(_) =>
      } else {
        assert At(next, key) == At(logs, key);
      }
      end := RunAgrees(next, past', key, ops[1..], at, windows);
      forall later | Orderly(ops + [later], clock, windows) && !later.Reset? ensures later.now >= end {
        assert (ops + [later])[0] == op && (ops + [later])[1..] == ops[1..] + [later];
      }
    }
  }

  /** After any orderly sequence of operations on any keys, Fail and Count answer
      the number of failures of their key since its last reset that lie strictly
      after now minus window. Fail adds the new failure, which lies in the window
      itself exactly when the window is not empty. */
  lemma CounterCountsHistory(ops: seq<Op>, op: Op, start: int, windows: Key -> int)
    requires Orderly(ops + [op], start, windows) && !op.Reset?
    ensures var past := Failures([], op.key, ops);
            Answer(Run(map[], ops), op) == |After(past, op.now - op.window)| + (if op.Fail? then 1 else 0)
    ensures op.Fail? ==>
              (Answer(Run(map[], ops), op) == |After(Failures([], op.key, ops + [op]), op.now - op.window)|
               <==> op.window > 0)
  {
    OrderlySplit(ops, op, start, windows);
    var end := RunAgrees(map[], [], op.key, ops, start, windows);
    var past := Failures([], op.key, ops);
    assert After(At(Run(map[], ops), op.key), op.now - op.window) == After(past, op.now - op.window);
    if op.Fail? {
      FailuresSnoc([], op.key, ops, op);
      AfterSnoc(past, op.now, op.now - op.window);
    }
  }

  lemma {:induction false} OrderlySplit(ops: seq<Op>, op: Op, start: int, windows: Key -> int)
    requires Orderly(ops + [op], start, windows) && !op.Reset?
    ensures Orderly(ops, start, windows) && op.window == windows(op.key)
    decreases |ops|
  {
    if ops != [] {
      assert (ops + [op])[0] == ops[0] && (ops + [op])[1..] == ops[1..] + [op];
      OrderlySplit(ops[1..], op, if ops[0].Reset? then start else ops[0].now, windows);
    } else {
      assert (ops + [op])[0] == op;
    }
  }

  lemma {:induction false} FailuresSnoc(past: seq<int>, key: Key, ops: seq<Op>, op: Op)
    requires op.Fail? && op.key == key
    ensures Failures(past, key, ops + [op]) == Failures(past, key, ops) + [op.now]
    decreases |ops|
  {
    if ops != [] {
      assert (ops + [op])[0] == ops[0] && (ops + [op])[1..] == ops[1..] + [op];
      FailuresSnoc(Remember(past, key, ops[0]), key, ops[1..], op);
    } else {
      assert (ops + [op])[0] == op && (ops + [op])[1..] == [];
    }
  }

  // ---- The counter itself

  class Counter {
    var logs: Logs

    constructor ()
      ensures logs == map[]
    {
      logs := map[];
    }

    method Fail(key: Key, now: int, window: int) returns (n: nat)
      modifies this
      ensures logs == Apply(old(logs), Op.Fail(key, now, window))
      ensures n == Answer(old(logs), Op.Fail(key, now, window))
    {
      var pruned := Prune(if key in logs then logs[key] else [], now, window);
      pruned := pruned + [now];
      logs := logs[key := pruned];
      n := |pruned|;
    }

    method Count(key: Key, now: int, window: int) returns (n: nat)
      modifies this
      ensures logs == Apply(old(logs), Op.Count(key, now, window))
      ensures n == Answer(old(logs), Op.Count(key, now, window))
    {
      var pruned := Prune(if key in logs then logs[key] else [], now, window);
      logs := logs[key := pruned];
      n := |pruned|;
    }

    method Reset(key: Key)
      modifies this
      ensures logs == Apply(old(logs), Op.Reset(key))
    {
      logs := logs - {key};
    }
  }
}
