// The actor itself: the fields of the connection, updated in place, and the
// flush that hands its requests to the overlay. Every method computes the
// function of the same name in `Connection`.
module ConnectionActor {
  import opened Wrappers
  import Urls
  import Readiness
  import C = Connection

  // The environment's part of one hand-over: a permit that raced a revocation,
  // and CEF's answer to `post_task`.
  datatype Answer = Answer(raced: bool, posted: bool)

  // Hands one request to the readiness channel; a rejected probe or navigation
  // fails on the spot.
  function Hand(c: C.Conn, q: Readiness.Queue<C.Request>, r: C.Request, a: Answer, now: C.Time)
    : (C.Conn, Readiness.Queue<C.Request>, bool)
  {
    var (q1, outcome) := Readiness.Offer(q, r, a.raced, a.posted);
    if outcome.Accepted? then (c, q1, true)
    else
      match r
      case Probe(cycle, _) => (C.ProbeFailed(c, cycle, now), q1, false)
      case Navigate(n, _) => (C.NavigationFailed(c, n), q1, false)
      case _ => (c, q1, false)
  }

  // `false` is a failed delivery: the rest of the batch is dropped and the
  // process starts shutting down.
  function HandAll(c: C.Conn, q: Readiness.Queue<C.Request>, batch: seq<C.Request>, answers: seq<Answer>, now: C.Time)
    : (C.Conn, Readiness.Queue<C.Request>, bool)
    requires |batch| <= |answers|
    decreases |batch|
  {
    if batch == [] then (c, q, true)
    else
      var (c1, q1, ok) := Hand(c, q, batch[0], answers[0], now);
      if ok then HandAll(c1, q1, batch[1..], answers[1..], now) else (c1, q1, false)
  }

  lemma {:induction false} HandTakes(c: C.Conn, q: Readiness.Queue<C.Request>, r: C.Request, a: Answer, now: C.Time)
    ensures var (c1, q1, ok) := Hand(c, q, r, a, now);
      if ok then c1 == c && q1.accepted == q.accepted + [r] else q1.accepted == q.accepted
  {
  }

  lemma {:induction false} HeadJoins<T>(before: seq<T>, batch: seq<T>, k: nat)
    requires k < |batch|
    ensures before + [batch[0]] + batch[1..][..k] == before + batch[..k + 1]
  {
    assert batch[..k + 1] == [batch[0]] + batch[1..][..k];
  }

  // The tail is handed over by the same rule, behind an accepted head.
  lemma {:induction false} AcceptedHead(
      c: C.Conn, q: Readiness.Queue<C.Request>, batch: seq<C.Request>, answers: seq<Answer>, now: C.Time)
    requires 0 < |batch| <= |answers| && Hand(c, q, batch[0], answers[0], now).2
    ensures var (c1, q1, _) := Hand(c, q, batch[0], answers[0], now);
      && c1 == c && q1.accepted == q.accepted + [batch[0]]
      && HandAll(c, q, batch, answers, now) == HandAll(c1, q1, batch[1..], answers[1..], now)
  {
    HandTakes(c, q, batch[0], answers[0], now);
  }

  lemma {:induction false} FailedHead(
      c: C.Conn, q: Readiness.Queue<C.Request>, batch: seq<C.Request>, answers: seq<Answer>, now: C.Time)
    requires 0 < |batch| <= |answers| && !Hand(c, q, batch[0], answers[0], now).2
    ensures var (_, q1, ok) := HandAll(c, q, batch, answers, now); !ok && q1.accepted == q.accepted
  {
    HandTakes(c, q, batch[0], answers[0], now);
  }

  // A delivered batch arrives whole and in order; a failed one arrives up to
  // the request that failed, and then nothing.
  lemma {:induction false} HandAllDelivers(
      c: C.Conn, q: Readiness.Queue<C.Request>, batch: seq<C.Request>, answers: seq<Answer>, now: C.Time)
    requires |batch| <= |answers|
    ensures var (c1, q1, ok) := HandAll(c, q, batch, answers, now);
      && (ok ==> c1 == c && q1.accepted == q.accepted + batch)
      && (!ok ==> exists k | 0 <= k < |batch| :: q1.accepted == q.accepted + batch[..k])
    decreases |batch|
  {
    if batch == [] {
      assert q.accepted + batch == q.accepted;
    } else if Hand(c, q, batch[0], answers[0], now).2 {
      AcceptedHead(c, q, batch, answers, now);
      var (c1, q1, _) := Hand(c, q, batch[0], answers[0], now);
      HandAllDelivers(c1, q1, batch[1..], answers[1..], now);
      var (_, q2, ok) := HandAll(c1, q1, batch[1..], answers[1..], now);
      if ok {
        HeadJoins(q.accepted, batch, |batch| - 1);
        assert batch[1..][..|batch| - 1] == batch[1..] && batch[..|batch|] == batch;
      } else {
        var k :| 0 <= k < |batch[1..]| && q2.accepted == q1.accepted + batch[1..][..k];
        HeadJoins(q.accepted, batch, k);
      }
    } else {
      FailedHead(c, q, batch, answers, now);
      assert q.accepted == q.accepted + batch[..0];
    }
  }

  class Actor {
    var phase: C.Phase
    var cycles: nat
    var navigations: nat
    var requests: seq<C.Request>
    var saved: string
    var saves: seq<string>
    var overlay: Readiness.Channel?<C.Request>

    function Abs(): C.Conn
      reads this
    {
      C.Conn(phase, cycles, navigations, requests, saved, saves)
    }

    constructor (url: string, saved: string, now: C.Time)
      ensures Abs() == C.New(url, saved, now)
      ensures overlay == null
    {
      phase := C.Editing(url);
      cycles, navigations, requests, overlay := 0, 0, [], null;
      this.saved, saves := saved, [];
      new;
      Connect(now);
    }

    method Enter(next: C.Phase)
      modifies this`phase, this`cycles, this`requests
      ensures Abs() == C.Enter(old(Abs()), next)
    {
      if phase.Probing? {
        cycles := cycles + 1;
        requests := requests + [C.CancelProbe];
      }
      var named := phase.Navigation();
      if named.Some? && next.Navigation() != named {
        requests := requests + [C.Abandon(named.value)];
      }
      phase := next;
    }

    method Connect(now: C.Time)
      modifies this`phase, this`cycles, this`requests
      ensures Abs() == C.Connect(old(Abs()), now)
    {
      var url;
      match phase {
        case Editing(u) => url := u;
        case Probing(u, _, _, _) => url := u;
        case Loading(base, _, _) => url := base;
        case Failed(u) => url := u;
        case Retiring(_, _) => url := saved;
        case Connected(_) => url := saved;
      }
      if Urls.IsBlank(url) {
        Enter(C.Editing(url));
        return;
      }
      cycles := cycles + 1;
      var cycle := cycles;
      Enter(C.Probing(url, cycle, now, false));
      requests := requests + [C.Probe(cycle, url)];
    }

    method NavigateTo(base: string, now: C.Time)
      modifies this
      ensures Abs() == C.NavigateTo(old(Abs()), base, now) && overlay == old(overlay)
    {
      saved := base;
      saves := saves + [saved];
      navigations := navigations + 1;
      var since := if phase.Probing? then phase.since else now;
      var navigation := navigations;
      Enter(C.Loading(base, navigation, since));
      requests := requests + [C.Navigate(navigation, base)];
    }

    method EditUrl(url: string)
      modifies this`phase, this`cycles, this`requests
      ensures Abs() == C.EditUrl(old(Abs()), url)
    {
      if phase.Editing? || phase.Loading? || phase.Retiring? || phase.Connected? {
        Enter(C.Editing(url));
      }
    }

    method Cancel()
      modifies this`phase, this`cycles, this`requests
      ensures Abs() == C.Cancel(old(Abs()))
    {
      match phase {
        case Probing(url, _, _, _) => Enter(C.Editing(url));
        case Loading(base, _, _) => Enter(C.Editing(base));
        case _ =>
      }
    }

    method DismissFailure()
      modifies this`phase, this`cycles, this`requests
      ensures Abs() == C.DismissFailure(old(Abs()))
    {
      if phase.Failed? {
        Enter(C.Editing(phase.url));
      }
    }

    method ProbeResolved(cycle: nat, base: string, now: C.Time)
      modifies this
      ensures Abs() == C.ProbeResolved(old(Abs()), cycle, base, now) && overlay == old(overlay)
    {
      if phase.Probing? && phase.cycle == cycle {
        NavigateTo(base, now);
      }
    }

    method ProbeFailed(cycle: nat, now: C.Time)
      modifies this`phase, this`cycles, this`requests
      ensures Abs() == C.ProbeFailed(old(Abs()), cycle, now)
    {
      if phase.Probing? && phase.cycle == cycle {
        if C.Elapsed(now, phase.since) < C.SPINNER_FLOOR {
          phase := phase.(unresolved := true);
        } else {
          Enter(C.Failed(phase.url));
        }
      }
    }

    method NavigationFailed(navigation: nat)
      modifies this`phase, this`cycles, this`requests
      ensures Abs() == C.NavigationFailed(old(Abs()), navigation)
      ensures old(phase).Loading? && old(phase).navigation == navigation ==>
                phase == C.Failed(old(phase).base) && requests == old(requests) + [C.Abandon(navigation)]
    {
      if phase.Loading? && phase.navigation == navigation {
        Enter(C.Failed(phase.base));
      }
    }

    // `true` is the one report that starts the fade.
    method FinishNavigation(navigation: nat, now: C.Time) returns (started: bool)
      modifies this`phase, this`cycles, this`requests
      ensures Abs() == C.FinishNavigation(old(Abs()), navigation, now)
      ensures started <==> Abs() != old(Abs())
    {
      started := phase.Loading? && phase.navigation == navigation;
      if started {
        Enter(C.Retiring(navigation, now));
      }
    }

    method Tick(now: C.Time)
      modifies this`phase, this`cycles, this`requests
      ensures Abs() == C.Tick(old(Abs()), now)
    {
      match phase {
        case Probing(url, _, since, unresolved) =>
          if unresolved && C.Elapsed(now, since) >= C.SPINNER_FLOOR {
            Enter(C.Failed(url));
          }
        case Retiring(navigation, fadeFrom) =>
          if C.Elapsed(now, fadeFrom) >= C.FADE {
            Enter(C.Connected(navigation));
          }
        case _ =>
      }
    }

    method Attach(channel: Readiness.Channel<C.Request>, answers: seq<Answer>, now: C.Time) returns (delivered: bool)
      requires |requests| <= |answers|
      modifies this, channel
      ensures overlay == channel
      ensures (Abs(), channel.Abs(), delivered) ==
              HandAll(old(Abs()).(requests := []), old(channel.Abs()), old(requests), answers, now)
    {
      overlay := channel;
      delivered := FlushRequests(answers, now);
    }

    method FlushRequests(answers: seq<Answer>, now: C.Time) returns (delivered: bool)
      requires |requests| <= |answers|
      modifies this, overlay
      ensures overlay == old(overlay)
      ensures overlay == null ==> Abs() == old(Abs()) && delivered
      ensures overlay != null ==>
                (Abs(), overlay.Abs(), delivered) ==
                HandAll(old(Abs()).(requests := []), old(overlay.Abs()), old(requests), answers, now)
    {
      if overlay == null {
        return true;
      }
      var channel: Readiness.Channel<C.Request> := overlay;
      var batch := requests;
      requests := [];
      ghost var c0, q0 := Abs(), channel.Abs();
      var i := 0;
      while i < |batch|
        invariant 0 <= i <= |batch| && overlay == channel
        invariant HandAll(c0, q0, batch, answers, now) == HandAll(Abs(), channel.Abs(), batch[i..], answers[i..], now)
      {
        assert batch[i..][1..] == batch[i + 1..] && answers[i..][1..] == answers[i + 1..];
        var request := batch[i];
        var outcome := channel.OnCefReady(request, answers[i].raced, answers[i].posted);
        if !outcome.Accepted? {
          match request {
            case Probe(cycle, _) => ProbeFailed(cycle, now);
            case Navigate(navigation, _) => NavigationFailed(navigation);
            case _ =>
          }
          return false;
        }
        i := i + 1;
      }
      return true;
    }
  }
}
