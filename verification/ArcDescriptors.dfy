/** Whose descriptors the port gets: a run of the ARC machine as marks on its descriptor list. */
module ArcDescriptors {
  import opened PowerTypes
  import opened Arc
  import opened ArcFrames
  import opened ArcInvariants

  // ---------------------------------------------------------------- what the list holds

  function Joined(reports: seq<Report>): seq<int> {
    if reports == [] then [] else Joined(reports[..|reports| - 1]) + reports[|reports| - 1].descriptors
  }

  lemma JoinedAppend(reports: seq<Report>, r: Report)
    ensures Joined(reports + [r]) == Joined(reports) + r.descriptors
  {
    assert (reports + [r])[..|reports|] == reports;
  }

  /** A step as the descriptor list sees it. */
  datatype Mark = Begun | Taken(descriptors: seq<int>) | Forgotten | Nothing

  function MarkOf(s: State, e: Event): Mark {
    if Begins(s, e) then Begun
    else if Forgets(s, e) then Forgotten
    else if e.DescriptorReport? && e.report.Some? && e.report.value != [] && s.sad == SadRequested then Taken(e.report.value)
    else Nothing
  }

  /** How a mark changes the list, its reports and the number of connections. */
  predicate Marked(s: State, t: State, m: Mark) {
    match m
    case Begun => t.archive.connection == s.archive.connection + 1 && SameList(s, t)
    case Taken(ds) =>
      && t.archive.connection == s.archive.connection
      && t.sadList == s.sadList + ds && t.archive.kept == s.archive.kept + [Report(s.archive.connection, ds)]
    case Forgotten => t.archive.connection == s.archive.connection && t.sadList == [] && t.archive.kept == []
    case Nothing => t.archive.connection == s.archive.connection && SameList(s, t)
  }

  lemma ReportIsMarked(s: State, report: Option<seq<int>>)
    ensures Marked(s, OnDescriptorReport(s, report), MarkOf(s, DescriptorReport(report)))
  {
    if report.Some? && report.value != [] {
      DeliverServes(Keep(TakeAny(s), report.value));
    }
  }

  /** The mark of a step, read off the state and event before it, tells exactly what the step
      does to the list. */
  lemma NextIsMarked(s: State, e: Event)
    requires Inv(s)
    ensures Marked(s, Next(s, e), MarkOf(s, e))
  {
    EveryEventHasItsKind(e);
    match e
    case EnablePort(enable, system, bitstream) => EnablePortServes(s, enable, system, bitstream);
    case SadTimer => SadTimerServes(s);
    case DescriptorReport(report) => ReportIsMarked(s, report);
    case SetSoundMode(portConnected, auto, stereo) => SetSoundModeServes(s, portConnected, auto, stereo);
    case AudioOutHotPlug(_, _) =>
    case _ =>
      if Looks(e) { LooksOnlyLook(s, e); } else if Connects(e) { ConnectsConnect(s, e); } else { DropsDrop(s, e); }
  }

  lemma BeginsExactlyWhenConnecting(s: State, e: Event)
    requires Inv(s) && !s.connected
    ensures MarkOf(s, e) == Begun <==> Next(s, e).connected
  {
    EveryEventHasItsKind(e);
    if Connects(e) {
      ConnectsConnect(s, e);
    } else if Serves(e) {
      ServesLeaveLink(s, e);
    } else if Looks(e) {
      LooksOnlyLook(s, e);
    } else if Drops(e) {
      DropsDrop(s, e);
    }
  }

  /** A connected device is dropped with its descriptors exactly by a termination, by unplugging
      the HDMI input, and by the removal of a device whose descriptors are not unknown; any other
      way leaves the list as it was. */
  lemma DisconnectForgetsExactlyWhen(s: State, e: Event)
    requires Inv(s) && s.connected && !Next(s, e).connected
    ensures var forgets := e.Termination? || e.HdmiInHotPlug? || (e.DeviceStatus? && s.sad != SadUnknown);
            if forgets then Next(s, e).sadList == [] && Next(s, e).archive.kept == [] else SameList(s, Next(s, e))
  {
    NextIsMarked(s, e);
    DisconnectIsMarked(s, e);
  }

  // ---------------------------------------------------------------- runs as marks

  function Trace(events: seq<Event>): (marks: seq<Mark>)
    ensures |marks| == |events|
  {
    if events == [] then []
    else
      var k := |events| - 1;
      Trace(events[..k]) + [MarkOf(After(INIT, events[..k]), events[k])]
  }

  lemma TraceAppend(events: seq<Event>, e: Event)
    ensures Trace(events + [e]) == Trace(events) + [MarkOf(After(INIT, events), e)]
  {
    assert (events + [e])[..|events|] == events;
  }

  /** A report that is still on the list: nothing was forgotten since it was taken. */
  ghost predicate Held(marks: seq<Mark>, m: int) {
    0 <= m < |marks| && marks[m].Taken? && forall j :: m < j < |marks| ==> !marks[j].Forgotten?
  }

  ghost predicate BegunAfter(marks: seq<Mark>, m: int) {
    exists i :: m < i < |marks| && 0 <= i && marks[i].Begun?
  }

  ghost predicate NoneHeld(marks: seq<Mark>) {
    forall m :: !Held(marks, m)
  }

  /** Every report on the list was taken since the current connection began. */
  ghost predicate OwnHeld(marks: seq<Mark>) {
    forall m :: Held(marks, m) ==> !BegunAfter(marks, m)
  }

  ghost predicate OneHeld(marks: seq<Mark>) {
    forall m, n :: Held(marks, m) && Held(marks, n) ==> m == n
  }

  lemma HeldAppend(marks: seq<Mark>, x: Mark, m: int)
    ensures Held(marks + [x], m) <==> (if m == |marks| then x.Taken? else Held(marks, m) && !x.Forgotten?)
    ensures Held(marks, m) ==> (BegunAfter(marks + [x], m) <==> BegunAfter(marks, m) || x.Begun?)
    ensures !BegunAfter(marks + [x], |marks|)
  {
    var more := marks + [x];
    assert more[|marks|] == x;
    assert forall j :: 0 <= j < |marks| ==> more[j] == marks[j];
    if Held(marks, m) && x.Begun? {
      assert more[|marks|].Begun?;
    }
    if BegunAfter(marks, m) {
      var i :| m < i < |marks| && 0 <= i && marks[i].Begun?;
      assert more[i].Begun?;
    }
  }

  predicate OfConnection(reports: seq<Report>, connection: nat) {
    forall i :: 0 <= i < |reports| ==> reports[i].connection == connection
  }

  /** Every report was taken in this connection or an earlier one. */
  predicate Dated(kept: seq<Report>, connection: nat) {
    forall i :: 0 <= i < |kept| ==> kept[i].connection <= connection
  }

  /** The reports that the marks of a run lead to. */
  ghost predicate KeptFollows(kept: seq<Report>, connection: nat, marks: seq<Mark>) {
    && Dated(kept, connection)
    && (kept == [] <==> NoneHeld(marks))
    && (|kept| <= 1 <==> OneHeld(marks))
    && (OfConnection(kept, connection) <==> OwnHeld(marks))
  }

  /** The list is what was taken since it was last emptied. */
  ghost predicate ListFollows(s: State, marks: seq<Mark>) {
    s.sadList == Joined(s.archive.kept) && KeptFollows(s.archive.kept, s.archive.connection, marks)
  }

  lemma OthersFollow(kept: seq<Report>, connection: nat, marks: seq<Mark>)
    requires KeptFollows(kept, connection, marks)
    ensures KeptFollows(kept, connection, marks + [Nothing])
  {
    forall m {
      HeldAppend(marks, Nothing, m);
    }
  }

  lemma NoneFollows(connection: nat, marks: seq<Mark>)
    ensures KeptFollows([], connection, marks + [Forgotten])
  {
    forall m {
      HeldAppend(marks, Forgotten, m);
    }
  }

  lemma BegunFollows(kept: seq<Report>, connection: nat, marks: seq<Mark>)
    requires KeptFollows(kept, connection, marks)
    ensures KeptFollows(kept, connection + 1, marks + [Begun])
  {
    forall m {
      HeldAppend(marks, Begun, m);
    }
    if kept != [] {
      var m :| Held(marks, m);
      assert Held(marks + [Begun], m) && BegunAfter(marks + [Begun], m);
      assert kept[0].connection != connection + 1;
    }
  }

  lemma TakenIsHeld(marks: seq<Mark>, ds: seq<int>)
    ensures var more := marks + [Taken(ds)];
            !NoneHeld(more) && (OneHeld(more) <==> NoneHeld(marks)) && (OwnHeld(more) <==> OwnHeld(marks))
  {
    var more := marks + [Taken(ds)];
    forall m {
      HeldAppend(marks, Taken(ds), m);
    }
    assert Held(more, |marks|);
    if m :| Held(marks, m) {
      assert Held(more, m) && m != |marks|;
    }
  }

  lemma KeptGrows(kept: seq<Report>, r: Report)
    requires Dated(kept, r.connection)
    ensures Dated(kept + [r], r.connection)
    ensures OfConnection(kept + [r], r.connection) <==> OfConnection(kept, r.connection)
  {
    assert forall i :: 0 <= i < |kept| ==> (kept + [r])[i] == kept[i];
  }

  lemma TakenFollows(kept: seq<Report>, connection: nat, marks: seq<Mark>, ds: seq<int>)
    requires KeptFollows(kept, connection, marks)
    ensures KeptFollows(kept + [Report(connection, ds)], connection, marks + [Taken(ds)])
  {
    TakenIsHeld(marks, ds);
    KeptGrows(kept, Report(connection, ds));
  }

  lemma MarkFollows(s: State, t: State, marks: seq<Mark>, m: Mark)
    requires ListFollows(s, marks) && Marked(s, t, m)
    ensures ListFollows(t, marks + [m])
  {
    var kept, connection := s.archive.kept, s.archive.connection;
    match m
    case Nothing => OthersFollow(kept, connection, marks);
    case Forgotten => NoneFollows(connection, marks);
    case Begun => BegunFollows(kept, connection, marks);
    case Taken(ds) =>
      TakenFollows(kept, connection, marks, ds);
      JoinedAppend(kept, Report(connection, ds));
  }

  /** In every run the list is made of the reports that are held. */
  lemma {:induction false} RunFollows(events: seq<Event>)
    ensures ListFollows(After(INIT, events), Trace(events)) && Inv(After(INIT, events))
    decreases |events|
  {
    RunKeepsInv(INIT, events);
    if events != [] {
      var k := |events| - 1;
      var before, e := events[..k], events[k];
      assert events == before + [e];
      RunFollows(before);
      AfterAppend(INIT, before, e);
      TraceAppend(before, e);
      var s := After(INIT, before);
      NextIsMarked(s, e);
      MarkFollows(s, Next(s, e), Trace(before), MarkOf(s, e));
    }
  }

  // ---------------------------------------------------------------- deliveries

  /** Whether a step gives the list to the port: an enable request or a timer expiry that finds
      a report received, or a report that comes while audio is routed or awaited. */
  predicate Gives(s: State, e: Event) {
    match e
    case EnablePort(enable, system, bitstream) =>
      enable && system != Standby && s.connected && !s.audioEnabled && s.devType == ArcDevice && bitstream && s.sad == SadReceived
    case SadTimer => s.connected && !s.audioEnabled && s.sad == SadReceived
    case DescriptorReport(report) =>
      && report.Some? && report.value != [] && s.sad == SadRequested && s.routing == Initiated
      && (s.audioEnabled || s.sadTimer)
    case _ => false
  }

  predicate Gave(s: State, t: State, gives: bool) {
    t.archive.given == if gives then s.archive.given + [Delivery(t.sadList, t.archive.kept)] else s.archive.given
  }

  lemma EnablePortGives(s: State, enable: bool, system: PowerState, bitstream: bool)
    ensures Gave(s, OnEnablePort(s, enable, system, bitstream), Gives(s, EnablePort(enable, system, bitstream)))
  {
  }

  lemma SadTimerGives(s: State)
    ensures Gave(s, OnSadTimer(s), Gives(s, SadTimer))
  {
  }

  lemma DeliverGives(s: State)
    ensures Gave(s, Deliver(s), s.audioEnabled || s.sadTimer)
  {
  }

  lemma ReportGives(s: State, report: Option<seq<int>>)
    ensures Gave(s, OnDescriptorReport(s, report), Gives(s, DescriptorReport(report)))
  {
    if report.Some? && report.value != [] {
      DeliverGives(Keep(TakeAny(s), report.value));
    }
  }

  lemma NextGives(s: State, e: Event)
    requires Inv(s)
    ensures Gave(s, Next(s, e), Gives(s, e))
  {
    EveryEventHasItsKind(e);
    match e
    case EnablePort(enable, system, bitstream) => EnablePortGives(s, enable, system, bitstream);
    case SadTimer => SadTimerGives(s);
    case DescriptorReport(report) => ReportGives(s, report);
    case SetSoundMode(portConnected, auto, stereo) => SetSoundModeServes(s, portConnected, auto, stereo);
    case AudioOutHotPlug(_, _) =>
    case _ =>
      if Looks(e) { LooksOnlyLook(s, e); } else if Connects(e) { ConnectsConnect(s, e); } else { DropsDrop(s, e); }
  }

  /** In every run, whichever of its four ways the port is given descriptors, it gets those of
      the reports on the list, in order. They are all of the current connection exactly when
      every report taken before that connection began was followed by a step that forgets, and
      they are of one report exactly when any earlier one was. */
  lemma PortGetsOwnDescriptorsExactlyWhen(past: seq<Event>, e: Event)
    requires Gives(After(INIT, past), e)
    ensures var t := After(INIT, past + [e]);
            var marks := Trace(past + [e]);
            && t.archive.given != []
            && var got := t.archive.given[|t.archive.given| - 1];
               && got.descriptors == Joined(got.reports)
               && (OfConnection(got.reports, t.archive.connection) <==> OwnHeld(marks))
               && (|got.reports| <= 1 <==> OneHeld(marks))
  {
    RunFollows(past);
    RunFollows(past + [e]);
    AfterAppend(INIT, past, e);
    NextGives(After(INIT, past), e);
  }

  lemma {:induction false} TracePrefix(events: seq<Event>, n: nat)
    requires n <= |events|
    ensures Trace(events)[..n] == Trace(events[..n])
    decreases |events|
  {
    if n < |events| {
      var k := |events| - 1;
      assert events[..k][..n] == events[..n];
      TracePrefix(events[..k], n);
    } else {
      assert events[..n] == events;
    }
  }

  lemma TraceLast(events: seq<Event>)
    requires events != []
    ensures var k := |events| - 1; Trace(events)[k] == MarkOf(After(INIT, events[..k]), events[k])
  {
  }

  lemma TraceAt(events: seq<Event>, n: nat)
    requires n < |events|
    ensures Trace(events)[n] == MarkOf(After(INIT, events[..n]), events[n])
  {
    var upTo := events[..n + 1];
    TracePrefix(events, n + 1);
    TraceLast(upTo);
    assert upTo[..n] == events[..n];
    assert Trace(events)[n] == Trace(events)[..n + 1][n];
  }

  /** Mark `d` is followed by that of the connection that is current now, at `i`; no report was
      taken from `d` to `i`, and nothing forgotten after `d`. */
  predicate LastBefore(marks: seq<Mark>, d: nat, i: nat) {
    && d < i < |marks| && marks[i].Begun?
    && (forall j :: d < j < |marks| ==> !marks[j].Forgotten?)
    && (forall j :: d <= j <= i ==> !marks[j].Taken?)
    && (forall j :: i < j < |marks| ==> !marks[j].Begun?)
  }

  lemma LastMarkDecides(marks: seq<Mark>, d: nat, i: nat)
    requires LastBefore(marks, d, i) && (exists m :: Held(marks[..d], m))
    ensures OwnHeld(marks) <==> marks[d].Forgotten?
  {
    if marks[d].Forgotten? {
      forall m | Held(marks, m)
        ensures !BegunAfter(marks, m)
      {
        assert m > d;
      }
    } else {
      var m :| Held(marks[..d], m);
      assert marks[m] == marks[..d][m];
      assert forall j :: m < j < d ==> marks[j] == marks[..d][j];
      assert Held(marks, m) && BegunAfter(marks, m);
    }
  }

  lemma ListMeansHeld(events: seq<Event>)
    requires After(INIT, events).sadList != []
    ensures exists m :: Held(Trace(events), m)
  {
    RunFollows(events);
    assert After(INIT, events).archive.kept != [];
  }

  /** In every run, where the disconnect at step `d` found descriptors on the list and was the
      last before the current connection: what a step then gives to the port is of that connection
      only, exactly if the disconnect was a termination, an unplugged HDMI input, or the removal of
      a device whose descriptors were not unknown. */
  lemma LastDisconnectDecides(past: seq<Event>, e: Event, d: nat, i: nat)
    requires Gives(After(INIT, past), e)
    requires d < |past| && LastBefore(Trace(past + [e]), d, i)
    requires var s := After(INIT, past[..d]); s.connected && !Next(s, past[d]).connected && s.sadList != []
    ensures var t := After(INIT, past + [e]);
            && t.archive.given != []
            && (OfConnection(t.archive.given[|t.archive.given| - 1].reports, t.archive.connection) <==>
                  || past[d].Termination? || past[d].HdmiInHotPlug?
                  || (past[d].DeviceStatus? && After(INIT, past[..d]).sad != SadUnknown))
  {
    var events := past + [e];
    var s := After(INIT, past[..d]);
    assert events[..d] == past[..d] && events[d] == past[d];
    PortGetsOwnDescriptorsExactlyWhen(past, e);
    TracePrefix(events, d);
    TraceAt(events, d);
    ListMeansHeld(past[..d]);
    LastMarkDecides(Trace(events), d, i);
    RunKeepsInv(INIT, past[..d]);
    DisconnectIsMarked(s, past[d]);
  }

  lemma DisconnectIsMarked(s: State, e: Event)
    requires Inv(s) && s.connected && !Next(s, e).connected
    ensures MarkOf(s, e) == Forgotten <==> e.Termination? || e.HdmiInHotPlug? || (e.DeviceStatus? && s.sad != SadUnknown)
  {
    EveryEventHasItsKind(e);
    if Connects(e) {
      ConnectsConnect(s, e);
    } else if Serves(e) {
      ServesLeaveLink(s, e);
    } else if Looks(e) {
      LooksOnlyLook(s, e);
    }
  }

  // ---------------------------------------------------------------- failing runs

  predicate Careless(d: Event) {
    d == SystemAudioMode(ModeOff) || d == PowerModeChanged(Standby, true) || d == GetConnectedPorts(false)
  }

  /** A device with a received report that has not been given to the port. */
  predicate HasReport(s: State) {
    && s.connected && s.devType == ArcDevice && !s.audioEnabled && s.sad == SadReceived
    && s.routing == Initiated && s.probe.confirmed
  }

  lemma CarelessDisconnects(s: State, d: Event)
    requires HasReport(s) && Careless(d)
    ensures var t := Next(s, d);
            && !t.connected && t.routing == Terminated && t.probe.confirmed && SameList(s, t)
            && t.archive == s.archive && t.world.asked == s.world.asked && !t.audioEnabled && t.devType != EarcDevice
            && t.sad == (if d == GetConnectedPorts(false) then SadUnknown else SadReceived)
            && (!s.sadTimer ==> !t.sadTimer)
  {
  }

  lemma ReconnectKeepsList(s: State)
    requires !s.connected && s.routing == Terminated && s.probe.confirmed
    ensures Connected(s, OnInitiation(s, Some(true), true), true)
  {
    InitiationConnects(s, Some(true), true);
  }

  lemma ReconnectAsks(s: State)
    requires !s.connected && s.routing == Terminated && s.probe.confirmed && s.devType != EarcDevice
    ensures var t := OnInitiation(s, Some(true), true);
            && t.devType == ArcDevice
            && t.sad == (if SadMissing(s) then SadRequested else s.sad)
            && t.world.asked == (if SadMissing(s) then s.world.asked + 1 else s.world.asked)
  {
    BeginSettles(s);
    BeginSettles(Request(s));
  }

  lemma BeginSettles(s: State)
    requires s.devType != EarcDevice
    ensures var t := Begin(s); t.devType == ArcDevice && t.sad == s.sad && t.world.asked == s.world.asked
  {
  }

  /** Three of the disconnects that do not forget, and what follows: the next connection starts
      with the descriptors of the one before, and does not ask for its own unless the list was
      declared unknown. */
  lemma DescriptorsOutliveConnection(s: State, d: Event)
    requires HasReport(s) && Careless(d)
    ensures var t := After(s, [d, Initiation(Some(true), true)]);
            && t.connected && t.devType == ArcDevice && !t.audioEnabled && SameList(s, t)
            && (!s.sadTimer ==> !t.sadTimer) && t.archive.given == s.archive.given && t.archive.connection == s.archive.connection + 1
            && t.sad == (if d == GetConnectedPorts(false) then SadRequested else SadReceived)
            && t.world.asked == s.world.asked + if d == GetConnectedPorts(false) then 1 else 0
  {
    CarelessDisconnects(s, d);
    ReconnectKeepsList(Next(s, d));
    ReconnectAsks(Next(s, d));
    AfterTwo(s, d, Initiation(Some(true), true));
  }

  lemma ReportIsReached(first: seq<int>)
    requires first != []
    ensures var s := After(INIT, [Initiation(Some(true), true), DescriptorReport(Some(first))]);
            HasReport(s) && !s.sadTimer && s.sadList == first && s.archive == Archive(1, [Report(1, first)], []) && s.world.asked == 1
  {
    AfterTwo(INIT, Initiation(Some(true), true), DescriptorReport(Some(first)));
  }

  /** The run to its end: the port is given the first connection's descriptors in the second,
      whose device was never asked for its own. */
  lemma SecondConnectionGetsFirstDescriptors(first: seq<int>, d: Event)
    requires first != [] && (d == SystemAudioMode(ModeOff) || d == PowerModeChanged(Standby, true))
    ensures var s := After(INIT, [Initiation(Some(true), true), DescriptorReport(Some(first))]
                                 + [d, Initiation(Some(true), true)] + [EnablePort(true, On, true)]);
            && s.archive.connection == 2 && s.archive.given != [] && s.world.asked == 1
            && s.archive.given[|s.archive.given| - 1] == Delivery(first, [Report(1, first)])
  {
    var start := [Initiation(Some(true), true), DescriptorReport(Some(first))];
    var again := [d, Initiation(Some(true), true)];
    ReportIsReached(first);
    DescriptorsOutliveConnection(After(INIT, start), d);
    AfterConcat(INIT, start, again);
    AfterAppend(INIT, start + again, EnablePort(true, On, true));
    var t := After(INIT, start + again);
    EnablePortGives(t, true, On, true);
    EnablePortServes(t, true, On, true);
    EnablePortAsksNothing(t, On);
  }

  lemma EnablePortAsksNothing(s: State, system: PowerState)
    ensures OnEnablePort(s, true, system, true).world.asked == s.world.asked
  {
  }

  /** After a query of the ports the second device is asked, and its descriptors come second. */
  lemma SecondConnectionGetsBothDescriptors(first: seq<int>, second: seq<int>)
    requires first != [] && second != []
    ensures var s := After(INIT, [Initiation(Some(true), true), DescriptorReport(Some(first))]
                                 + [GetConnectedPorts(false), Initiation(Some(true), true)]
                                 + [DescriptorReport(Some(second)), EnablePort(true, On, true)]);
            && s.archive.connection == 2 && s.archive.given != []
            && s.archive.given[|s.archive.given| - 1] == Delivery(first + second, [Report(1, first), Report(2, second)])
  {
    var start := [Initiation(Some(true), true), DescriptorReport(Some(first))];
    var again := [GetConnectedPorts(false), Initiation(Some(true), true)];
    QueryIsReached(first);
    var t := After(INIT, start + again);
    AfterConcat(INIT, start + again, [DescriptorReport(Some(second)), EnablePort(true, On, true)]);
    AfterTwo(t, DescriptorReport(Some(second)), EnablePort(true, On, true));
    ReportThenEnable(t, second);
  }

  lemma QueryIsReached(first: seq<int>)
    requires first != []
    ensures var t := After(INIT, [Initiation(Some(true), true), DescriptorReport(Some(first))]
                                 + [GetConnectedPorts(false), Initiation(Some(true), true)]);
            && t.connected && t.devType == ArcDevice && !t.audioEnabled && !t.sadTimer && t.sad == SadRequested
            && t.sadList == first && t.archive == Archive(2, [Report(1, first)], [])
  {
    var start := [Initiation(Some(true), true), DescriptorReport(Some(first))];
    ReportIsReached(first);
    DescriptorsOutliveConnection(After(INIT, start), GetConnectedPorts(false));
    AfterConcat(INIT, start, [GetConnectedPorts(false), Initiation(Some(true), true)]);
  }

  lemma ReportThenEnable(s: State, report: seq<int>)
    requires s.connected && s.devType == ArcDevice && !s.audioEnabled && !s.sadTimer && s.sad == SadRequested && report != []
    ensures var t := OnEnablePort(OnDescriptorReport(s, Some(report)), true, On, true);
            && t.archive.connection == s.archive.connection
            && t.archive.given == s.archive.given
               + [Delivery(s.sadList + report, s.archive.kept + [Report(s.archive.connection, report)])]
  {
    var t := OnDescriptorReport(s, Some(report));
    ReportIsMarked(s, Some(report));
    ReportGives(s, Some(report));
    DescriptorReportServes(s, Some(report));
    EnablePortGives(t, true, On, true);
    EnablePortServes(t, true, On, true);
    assert t.sad == SadReceived && !t.audioEnabled;
  }

  /** The timer asks again although the port has the list already, and the second report joins
      the first; the port is given both when it comes or at the next expiry. */
  lemma SecondRequestDoubles(s: State, second: seq<int>)
    requires s.sad == SadUpdated && s.connected && !s.audioEnabled && !s.retrigger && second != []
    ensures var t := OnDescriptorReport(OnSadTimer(s), Some(second));
            && t.sadList == s.sadList + second
            && (if s.routing == Initiated then Gives(OnSadTimer(s), DescriptorReport(Some(second))) else Gives(t, SadTimer))
  {
    DeliverServes(Keep(TakeAny(OnSadTimer(s)), second));
  }

  lemma TimerOutlivesTermination()
    ensures var s := After(INIT, REQUEST + [Termination(Some(false))]);
            && s.connected && s.devType == ArcDevice && s.sad == SadCleared && s.routing == Terminated
            && s.sadTimer && !s.audioEnabled && s.sadList == [] && !s.retrigger
  {
    RequestWaits();
    AfterAppend(INIT, REQUEST, Termination(Some(false)));
  }

  lemma PassThroughAsks(past: seq<Event>)
    requires var s := After(INIT, past); s.connected && s.devType == ArcDevice && s.sad == SadCleared
    ensures After(INIT, past + [SetSoundMode(true, false, PassThru)]) == Request(After(INIT, past))
  {
    AfterAppend(INIT, past, SetSoundMode(true, false, PassThru));
  }

  lemma TimerRunsOn()
    ensures var s := After(INIT, REQUEST + [Termination(Some(false))] + [SetSoundMode(true, false, PassThru)]);
            && s.connected && s.devType == ArcDevice && s.sad == SadRequested && s.routing == Terminated
            && s.sadTimer && !s.audioEnabled && s.sadList == [] && !s.retrigger
  {
    TimerOutlivesTermination();
    PassThroughAsks(REQUEST + [Termination(Some(false))]);
  }

  lemma ReportWaits(past: seq<Event>, first: seq<int>)
    requires first != []
    requires var s := After(INIT, past);
             && s.connected && s.devType == ArcDevice && s.sad == SadRequested && s.routing == Terminated
             && s.sadTimer && !s.audioEnabled && s.sadList == [] && !s.retrigger
    ensures var s := After(INIT, past + [DescriptorReport(Some(first))]);
            && s.connected && s.devType == ArcDevice && s.sad == SadReceived
            && s.sadTimer && !s.audioEnabled && s.sadList == first && !s.retrigger
  {
    AfterAppend(INIT, past, DescriptorReport(Some(first)));
  }

  lemma EnabledAndDisabled(past: seq<Event>)
    requires var s := After(INIT, past);
             s.connected && s.devType == ArcDevice && s.sad == SadReceived && s.sadTimer && !s.audioEnabled && !s.retrigger
    ensures var s := After(INIT, past + [EnablePort(true, On, true)] + [EnablePort(false, On, true)]);
            && s.connected && s.sad == SadUpdated && s.sadTimer && !s.audioEnabled && !s.retrigger
            && s.sadList == After(INIT, past).sadList
  {
    AfterAppend(INIT, past, EnablePort(true, On, true));
    AfterAppend(INIT, past + [EnablePort(true, On, true)], EnablePort(false, On, true));
  }

  /** It is reached with the timer armed: an enable request arms it, a failed termination leaves
      it so, a report is given by a second enable request, and a disable request unroutes. */
  lemma SecondRequestIsReached(first: seq<int>)
    requires first != []
    ensures var s := After(INIT, REQUEST + [Termination(Some(false))] + [SetSoundMode(true, false, PassThru)]
                                 + [DescriptorReport(Some(first))] + [EnablePort(true, On, true)] + [EnablePort(false, On, true)]);
            s.sad == SadUpdated && s.connected && !s.audioEnabled && !s.retrigger && s.sadTimer && s.sadList == first
  {
    TimerRunsOn();
    var past := REQUEST + [Termination(Some(false))] + [SetSoundMode(true, false, PassThru)];
    ReportWaits(past, first);
    EnabledAndDisabled(past + [DescriptorReport(Some(first))]);
  }
}
