// The browser's half of the protocol: the deferred load, which navigation the
// browser's pixels belong to, and what each UI-thread event does to both.
module Browser {
  import opened Wrappers
  import Urls

  datatype Load = Page(navigation: nat, url: string) | Blank

  datatype Painting =
    | Unnamed
    | Awaiting(navigation: nat, base: string)
    | Loaded(navigation: nat, base: string, presented: bool)
  {
    // The document at `url` is in, if it is this navigation's own.
    function AfterLoad(url: string): Painting {
      match this
      case Awaiting(n, base) => if Urls.IsPageOf(base, url) then Loaded(n, base, false) else this
      case _ => this
    }

    function Named(): Option<nat> {
      match this
      case Unnamed => None
      case Awaiting(n, _) => Some(n)
      case Loaded(n, _, _) => Some(n)
    }

    // Whose page `url` is, by the base being painted.
    function NavigationOf(url: string): Option<nat> {
      match this
      case Unnamed => None
      case Awaiting(n, base) => if Urls.IsPageOf(base, url) then Some(n) else None
      case Loaded(n, base, _) => if Urls.IsPageOf(base, url) then Some(n) else None
    }

    // Whose first frame the next one shown would be.
    function Witness(): Option<nat> {
      match this
      case Loaded(n, _, false) => Some(n)
      case _ => None
    }

    // The state after `n`'s frame was presented, and whether that was a first.
    function MarkPresented(n: nat): (Painting, bool) {
      match this
      case Loaded(live, base, presented) =>
        if live == n && !presented then (Loaded(live, base, true), true) else (this, false)
      case _ => (this, false)
    }
  }

  // The client CEF owns: its painting, and whether a browser is behind it.
  datatype Client = Client(painting: Painting, attached: bool)

  // `created` is set once and for all by the one client ever made; `probe` is
  // the probe kept alive on the UI thread. `loads` is a history: what was submitted
  // to a main frame, in order.
  datatype Browser = Browser(
    pending: Option<Load>, created: bool, client: Option<Client>, probe: Option<nat>, loads: seq<Load>)

  function Initial(): Browser {
    Browser(None, false, None, None, [])
  }

  // Submits the deferred load to a real main frame; `frame` is whether the
  // browser has one.
  function Deliver(b: Browser, frame: bool): Browser {
    if b.client.None? || !b.client.value.attached || !frame || b.pending.None? then b
    else
      var painting :=
        match b.pending.value
        case Page(n, url) => Awaiting(n, url)
        case Blank => Unnamed;
      b.(pending := None, client := Some(b.client.value.(painting := painting)), loads := b.loads + [b.pending.value])
  }

  function Navigate(b: Browser, n: nat, url: string, frame: bool): Browser {
    var b1 := b.(pending := Some(Page(n, url)));
    if b.client.None? then b1
    else Deliver(b1.(client := Some(b.client.value.(painting := Awaiting(n, url)))), frame)
  }

  function AbandonDeferred(pending: Option<Load>, n: nat): Option<Load> {
    if pending.Some? && pending.value.Page? && pending.value.navigation == n then Some(Blank) else pending
  }

  function Abandon(b: Browser, n: nat, frame: bool): Browser {
    var b1 := b.(pending := AbandonDeferred(b.pending, n));
    if b.client.None? then b1
    else
      var b2 :=
        if b.client.value.painting.Named() == Some(n) then
          b1.(client := Some(b.client.value.(painting := Unnamed)),
              pending := if b1.pending.None? then Some(Blank) else b1.pending)
        else b1;
      Deliver(b2, frame)
  }

  function LoadEnd(b: Browser, url: string): Browser {
    if b.client.None? then b
    else b.(client := Some(b.client.value.(painting := b.client.value.painting.AfterLoad(url))))
  }

  // The failure a main-frame load error is charged to.
  function LoadError(b: Browser, url: string, aborted: bool): Option<nat> {
    if b.client.None? || aborted then None else b.client.value.painting.NavigationOf(url)
  }

  // One frame; `shown` is whether the surface committed it. The second result
  // is the navigation whose first frame this was.
  function Paint(b: Browser, shown: bool): (Browser, Option<nat>) {
    if b.client.None? || !shown then (b, None)
    else
      match b.client.value.painting.Witness()
      case None => (b, None)
      case Some(n) =>
        var (painting, first) := b.client.value.painting.MarkPresented(n);
        (b.(client := Some(b.client.value.(painting := painting))), if first then Some(n) else None)
  }

  function CreateClient(b: Browser): Browser {
    if b.created then b else b.(created := true, client := Some(Client(Unnamed, false)))
  }

  // The last owner of the client went away; there is never another.
  function DropClient(b: Browser): Browser {
    b.(client := None)
  }

  function AfterCreated(b: Browser, active: bool, frame: bool): Browser {
    if b.client.None? then b
    else
      var b1 := b.(client := Some(b.client.value.(attached := true)));
      if active then Deliver(b1, frame) else b1
  }

  function BeforeClose(b: Browser): Browser {
    if b.client.None? then b else b.(client := Some(b.client.value.(attached := false)))
  }

  // ----- what the browser is set on -----

  // The navigation the browser shows or will show: the deferred load if there
  // is one, and the painting otherwise.
  function Intent(b: Browser): Option<nat> {
    match b.pending
    case Some(Page(n, _)) => Some(n)
    case Some(Blank) => None
    case None => if b.client.Some? then b.client.value.painting.Named() else None
  }

  function PaintingOf(b: Browser): Painting {
    if b.client.Some? then b.client.value.painting else Unnamed
  }

  // The deferred load and the painting never disagree about a navigation.
  predicate Agreed(b: Browser) {
    && (!b.created ==> b.client.None?)
    && (PaintingOf(b).Named().Some? ==> Intent(b) == PaintingOf(b).Named())
  }

  // Each operation does to the intent what its request says, whether or not a
  // client, a browser or a main frame exists, and the environment's events do
  // nothing to it.
  lemma {:induction false} NavigateSets(b: Browser, n: nat, url: string, frame: bool)
    requires Agreed(b)
    ensures Agreed(Navigate(b, n, url, frame)) && Intent(Navigate(b, n, url, frame)) == Some(n)
  {
  }

  lemma {:induction false} AbandonClears(b: Browser, n: nat, frame: bool)
    requires Agreed(b)
    ensures Agreed(Abandon(b, n, frame))
    ensures Intent(Abandon(b, n, frame)) == if Intent(b) == Some(n) then None else Intent(b)
  {
  }

  lemma {:induction false} EventsLeaveIntent(b: Browser, url: string, shown: bool, active: bool, frame: bool)
    requires Agreed(b)
    ensures Agreed(LoadEnd(b, url)) && Intent(LoadEnd(b, url)) == Intent(b)
    ensures Agreed(Paint(b, shown).0) && Intent(Paint(b, shown).0) == Intent(b)
    ensures Agreed(AfterCreated(b, active, frame)) && Intent(AfterCreated(b, active, frame)) == Intent(b)
    ensures Agreed(BeforeClose(b)) && Intent(BeforeClose(b)) == Intent(b)
    ensures Agreed(CreateClient(b)) && (b.client.Some? || !b.created ==> Intent(CreateClient(b)) == Intent(b))
  {
  }

  // A frame is charged to a navigation exactly between its document's load and its
  // first presentation, and a failure exactly to the navigation whose page failed.
  lemma {:induction false} FrameAndFailureAreTheIntents(b: Browser, url: string, aborted: bool, shown: bool, n: nat)
    requires Agreed(b)
    ensures Paint(b, shown).1 == Some(n) <==>
            shown && Intent(b) == Some(n) && PaintingOf(b).Loaded? && !PaintingOf(b).presented
    ensures Paint(b, shown).1 == Some(n) ==> Paint(Paint(b, shown).0, true).1.None?
    ensures LoadError(b, url, aborted) == Some(n) <==>
            !aborted && PaintingOf(b).Named() == Some(n) && Intent(b) == Some(n) && Urls.IsPageOf(PaintingOf(b).base, url)
  {
  }

  // ----- what the browser has been told to load -----

  predicate Live(b: Browser) {
    b.client.Some? && b.client.value.attached
  }

  // A browser with a main frame is told at once: nothing stays deferred. Without
  // one nothing is told.
  lemma {:induction false} NothingStaysDeferred(b: Browser, n: nat, url: string, frame: bool)
    ensures Navigate(b, n, url, frame).pending.None? <==> Live(b) && frame
    ensures Live(b) && frame ==> Abandon(b, n, frame).pending.None?
    ensures b.client.Some? && frame ==> AfterCreated(b, true, frame).pending.None?
    ensures !(Live(b) && frame) ==> Navigate(b, n, url, frame).loads == b.loads == Abandon(b, n, frame).loads
  {
  }

  // The browser was last told to load the page of `live`, or will be; with nothing
  // live it was last told a blank page, or nothing yet, or will be.
  predicate SetOn(b: Browser, live: Option<(nat, string)>) {
    match live
    case Some((n, url)) =>
      b.pending == Some(Page(n, url)) || (b.pending.None? && b.loads != [] && b.loads[|b.loads| - 1] == Page(n, url))
    case None =>
      b.pending == Some(Blank) || (b.pending.None? && (b.loads == [] || b.loads[|b.loads| - 1] == Blank))
  }

  lemma {:induction false} NavigateLoads(b: Browser, n: nat, url: string, frame: bool)
    ensures SetOn(Navigate(b, n, url, frame), Some((n, url)))
  {
  }

  lemma {:induction false} AbandonLoads(b: Browser, live: Option<(nat, string)>, n: nat, frame: bool)
    requires Agreed(b) && SetOn(b, live)
    requires Intent(b) == if live.Some? then Some(live.value.0) else None
    ensures SetOn(Abandon(b, n, frame), if live.Some? && live.value.0 == n then None else live)
  {
  }

  lemma {:induction false} EventsLeaveLoads(b: Browser, live: Option<(nat, string)>, url: string, shown: bool, active: bool, frame: bool)
    requires SetOn(b, live)
    ensures SetOn(LoadEnd(b, url), live) && SetOn(Paint(b, shown).0, live) && SetOn(BeforeClose(b), live)
    ensures SetOn(CreateClient(b), live) && SetOn(DropClient(b), live) && SetOn(AfterCreated(b, active, frame), live)
  {
  }

  // A blank document, an empty URL and a page of another server promote nothing.
  lemma {:induction false} OnlyOwnPagePromotes(b: Browser, url: string)
    requires PaintingOf(b).Awaiting?
    ensures PaintingOf(LoadEnd(b, url)).Loaded? <==> Urls.IsPageOf(PaintingOf(b).base, url)
    ensures !Urls.IsPageOf(PaintingOf(b).base, url) ==> LoadEnd(b, url) == b
  {
  }
}

// The same half as the objects that hold it, updated in place.
module BrowserObjects {
  import opened Wrappers
  import B = Browser

  // The newest load not yet submitted to a main frame: a vector of at most one.
  class DeferredNavigation {
    var pending: seq<B.Load>
    ghost var loads: seq<B.Load>

    ghost predicate Valid()
      reads this
    {
      |pending| <= 1
    }

    function Abs(): Option<B.Load>
      reads this
    {
      if pending == [] then None else Some(pending[0])
    }

    constructor ()
      ensures Valid() && Abs() == None && loads == []
    {
      pending, loads := [], [];
    }

    method Navigate(navigation: nat, url: string)
      modifies this
      ensures Valid() && Abs() == Some(B.Page(navigation, url)) && loads == old(loads)
    {
      pending := [];
      pending := pending + [B.Page(navigation, url)];
    }

    method Abandon(navigation: nat)
      requires Valid()
      modifies this
      ensures Valid() && Abs() == B.AbandonDeferred(old(Abs()), navigation) && loads == old(loads)
    {
      if |pending| == 1 && pending[0].Page? && pending[0].navigation == navigation {
        pending := [];
        pending := pending + [B.Blank];
      }
    }

    method BlankIfAbsent()
      requires Valid()
      modifies this
      ensures Valid() && Abs() == (if old(Abs()).None? then Some(B.Blank) else old(Abs())) && loads == old(loads)
    {
      if pending == [] {
        pending := pending + [B.Blank];
      }
    }
  }

  class Inner {
    var painting: B.Painting
    var attached: bool
    const deferred: DeferredNavigation

    function Abs(): B.Client
      reads this
    {
      B.Client(painting, attached)
    }

    // This client with its deferred slot, as one browser state.
    ghost function View(probe: Option<nat>): B.Browser
      reads this, deferred
    {
      B.Browser(deferred.Abs(), true, Some(Abs()), probe, deferred.loads)
    }

    constructor (deferred: DeferredNavigation)
      ensures this.deferred == deferred && Abs() == B.Client(B.Unnamed, false)
    {
      this.deferred := deferred;
      painting, attached := B.Unnamed, false;
    }

    method DeliverDeferredNavigation(frame: bool)
      requires deferred.Valid()
      modifies this, deferred
      ensures deferred.Valid()
      ensures forall probe :: View(probe) == B.Deliver(old(View(probe)), frame)
      ensures attached == old(attached)
      ensures if attached && frame && old(deferred.pending) != []
              then deferred.pending == [] && deferred.loads == old(deferred.loads) + [old(deferred.pending)[0]]
              else painting == old(painting) && deferred.pending == old(deferred.pending) && deferred.loads == old(deferred.loads)
      ensures attached && frame && old(deferred.pending) != [] ==>
                painting == match old(deferred.pending)[0] case Page(n, url) => B.Awaiting(n, url) case Blank => B.Unnamed
    {
      if !attached || !frame || deferred.pending == [] {
        return;
      }
      match deferred.pending[0] {
        case Page(navigation, url) => painting := B.Awaiting(navigation, url);
        case Blank => painting := B.Unnamed;
      }
      deferred.loads := deferred.loads + [deferred.pending[0]];
      deferred.pending := [];
    }

    // With a browser and a main frame the page is submitted at once.
    method Navigate(navigation: nat, url: string, frame: bool)
      requires deferred.Valid()
      modifies this, deferred
      ensures deferred.Valid()
      ensures painting == B.Awaiting(navigation, url)
      ensures if attached && frame
              then deferred.pending == [] && deferred.loads == old(deferred.loads) + [B.Page(navigation, url)]
              else deferred.pending == [B.Page(navigation, url)] && deferred.loads == old(deferred.loads)
      ensures forall probe :: View(probe) == B.Navigate(old(View(probe)), navigation, url, frame)
    {
      deferred.Navigate(navigation, url);
      painting := B.Awaiting(navigation, url);
      DeliverDeferredNavigation(frame);
    }

    method NoteMainFrameLoaded(url: string)
      modifies this
      ensures forall probe :: View(probe) == B.LoadEnd(old(View(probe)), url)
    {
      var previous := painting;
      painting := B.Unnamed;
      painting := previous.AfterLoad(url);
    }

    method AbandonNavigation(navigation: nat, frame: bool)
      requires deferred.Valid()
      modifies this, deferred
      ensures deferred.Valid()
      ensures forall probe :: View(probe) == B.Abandon(old(View(probe)), navigation, frame)
    {
      deferred.Abandon(navigation);
      var matched := painting.Named() == Some(navigation);
      if matched {
        painting := B.Unnamed;
        deferred.BlankIfAbsent();
      }
      DeliverDeferredNavigation(frame);
    }

    // `on_paint`: the witness is read before the surface is asked, and reported
    // only when the surface took the frame and this was the first.
    method OnPaint(shown: bool) returns (reported: Option<nat>)
      modifies this
      ensures forall probe :: (View(probe), reported) == B.Paint(old(View(probe)), shown)
    {
      var navigation := painting.Witness();
      reported := None;
      if shown && navigation.Some? {
        var (marked, first) := painting.MarkPresented(navigation.value);
        painting := marked;
        if first {
          reported := navigation;
        }
      }
    }

    method OnLoadError(url: string, aborted: bool) returns (failed: Option<nat>)
      ensures forall probe :: failed == B.LoadError(View(probe), url, aborted)
    {
      failed := None;
      if !aborted {
        failed := painting.NavigationOf(url);
      }
    }

    // `closes` tells a browser that came up under a closed session to go; in an
    // active one the created callback runs, and then the deferred load is tried.
    method HandleOnAfterCreated(active: bool, frame: bool) returns (closes: bool, announces: bool)
      requires deferred.Valid()
      modifies this, deferred
      ensures deferred.Valid() && closes == !active && announces == active
      ensures forall probe :: View(probe) == B.AfterCreated(old(View(probe)), active, frame)
    {
      attached := true;
      if !active {
        return true, false;
      }
      DeliverDeferredNavigation(frame);
      return false, true;
    }

    // A browser that closed in an active session is created again.
    method HandleOnBeforeClose(active: bool) returns (recreates: bool)
      modifies this
      ensures recreates == active
      ensures forall probe :: View(probe) == B.BeforeClose(old(View(probe)))
    {
      attached := false;
      recreates := active;
    }
  }

  // The overlay: at most one client ever, the slot it shares with it, and the
  // probe kept alive on the UI thread.
  class Overlay {
    const deferred: DeferredNavigation
    var client: Inner?
    var created: bool
    var probe: Option<nat>

    ghost predicate Valid()
      reads this, deferred, client
    {
      && deferred.Valid()
      && (client != null ==> created && client.deferred == deferred)
    }

    ghost function Abs(): B.Browser
      reads this, deferred, client
    {
      B.Browser(deferred.Abs(), created, if client == null then None else Some(client.Abs()), probe, deferred.loads)
    }

    constructor ()
      ensures Valid() && Abs() == B.Initial() && fresh(deferred)
    {
      deferred := new DeferredNavigation();
      client, created, probe := null, false, None;
    }

    // Without a platform or a menu to build it from no client is made, and with
    // one already made none is made again.
    method EnsureBrowser(platform: bool, menu: bool) returns (creates: bool)
      requires Valid()
      modifies this
      ensures Valid() && creates == (platform && menu && !old(created))
      ensures Abs() == if platform && menu then B.CreateClient(old(Abs())) else old(Abs())
    {
      creates := false;
      if !created && platform && menu {
        client := new Inner(deferred);
        created := true;
        creates := true;
      }
    }

    method NavigateOnUi(navigation: nat, url: string, frame: bool)
      requires Valid()
      modifies client, deferred
      ensures Valid() && Abs() == B.Navigate(old(Abs()), navigation, url, frame)
    {
      if client != null {
        client.Navigate(navigation, url, frame);
        assert client.View(probe) == B.Navigate(old(client.View(probe)), navigation, url, frame);
      } else {
        deferred.Navigate(navigation, url);
      }
    }

    method AbandonOnUi(navigation: nat, frame: bool)
      requires Valid()
      modifies client, deferred
      ensures Valid() && Abs() == B.Abandon(old(Abs()), navigation, frame)
    {
      if client != null {
        client.AbandonNavigation(navigation, frame);
        assert client.View(probe) == B.Abandon(old(client.View(probe)), navigation, frame);
      } else {
        deferred.Abandon(navigation);
      }
    }

    // `canceled` is the probe whose request is canceled.
    method CancelProbeOnUi() returns (canceled: Option<nat>)
      modifies this`probe
      ensures probe == None && canceled == old(probe)
    {
      canceled := probe;
      probe := None;
    }

    // Without anyone to answer the previous probe is canceled and none is started.
    method ProbeOnUi(cycle: nat, handler: bool) returns (canceled: Option<nat>)
      modifies this`probe
      ensures canceled == old(probe) && probe == if handler then Some(cycle) else None
    {
      canceled := CancelProbeOnUi();
      if handler {
        probe := Some(cycle);
      }
    }
  }
}
