/** handleMain as the source writes it: one pass over the streamer's fields after the
    main stream has ended, tied to the steps of the machine. */
module FailoverStreamer {
  import opened FailoverModel

  function Rank(t: Thread): nat {
    match t
    case MEnded(_) => 4
    case MCount(_) => 3
    case MBudget => 2
    case MChoose => 1
    case _ => 0
  }

  /** Where a main goroutine's own steps take it and its counter before it next sleeps,
      sends or leaves. */
  function Settle(c: Config, g: Shared, b: Book, t: Thread): (Book, Thread)
    decreases Rank(t)
  {
    if Rank(t) == 0 then (b, t)
    else Settle(c, g, BookMove(c, b, g, t, true), ThreadMove(c, g, b.retry, t, true))
  }

  /** One step towards the settled point. */
  lemma SettleStep(c: Config, g: Shared, b: Book, t: Thread)
    requires Rank(t) > 0
    ensures var b' := BookMove(c, b, g, t, true); var t' := ThreadMove(c, g, b.retry, t, true);
            Settle(c, g, b, t) == if Rank(t') == 0 then (b', t') else Settle(c, g, b', t')
  {
  }

  class Streamer {
    var mainRetryCount: nat
    var standbyActive: bool

    /** handleMain after its stream has ended, up to the send or the backoff sleep: what the
        method leaves behind is what the machine's steps leave behind. */
    method MainStreamEnded(c: Config, short: bool, ghost g: Shared, ghost b: Book, rootDone: bool)
      returns (next: Thread)
      requires g.root == rootDone && g.active == standbyActive && b.retry == mainRetryCount
      modifies this`mainRetryCount
      ensures next ==
              if rootDone then MSend(Stop)
              else if !short then MSend(Main)
              else if old(mainRetryCount) + 1 < c.retryCount then MBackoff
              else if c.standbyExists && !standbyActive then MSend(Failover)
              else MSend(RestartMain)
      ensures mainRetryCount ==
              if rootDone then old(mainRetryCount)
              else if short && old(mainRetryCount) + 1 < c.retryCount then old(mainRetryCount) + 1
              else 0
      ensures next == Settle(c, g, b, MEnded(short)).1
      ensures mainRetryCount == Settle(c, g, b, MEnded(short)).0.retry
    {
      ghost var b1 := BookMove(c, b, g, MCount(short), true);
      ghost var b2 := BookMove(c, b1, g, MBudget, true);
      SettleStep(c, g, b, MEnded(short));
      SettleStep(c, g, b, MCount(short));
      SettleStep(c, g, b1, MBudget);
      SettleStep(c, g, b2, MChoose);
      if rootDone {
        return MSend(Stop);
      }
      if short {
        mainRetryCount := mainRetryCount + 1;
      } else {
        mainRetryCount := 0;
        return MSend(Main);
      }
      if mainRetryCount < c.retryCount {
        return MBackoff;
      }
      mainRetryCount := 0;
      if c.standbyExists && !standbyActive {
        return MSend(Failover);
      } else {
        return MSend(RestartMain);
      }
    }
  }

  /** The same, run in the machine: if no other goroutine interferes, the steps of goroutine
      `i` lead to exactly the settled point. */
  lemma {:induction false} StepsSettle(c: Config, s: State, i: nat) returns (acts: seq<Action>)
    requires i < |s.threads| && Rank(s.threads[i]) > 0
    ensures Executes(c, s, acts)
    ensures var t := After(c, s, acts); var r := Settle(c, s.g, s.book, s.threads[i]);
            t.g == s.g && t.book == r.0 && t.threads == s.threads[i := r.1] && t.wg == s.wg
    decreases Rank(s.threads[i])
  {
    var a := ThreadStep(i, true);
    var u := Next(c, s, a);
    if Rank(u.threads[i]) == 0 {
      acts := [a];
      assert acts[1..] == [];
      assert After(c, u, []) == u;
    } else {
      var rest := StepsSettle(c, u, i);
      acts := [a] + rest;
      assert acts[1..] == rest;
    }
  }
}
