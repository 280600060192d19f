/** The relay controller: the value-level meaning of one serialised command, and what a run of commands amounts to. */
module Relay {

  const CHANNELS_PER_RELAY := 2

  predicate ValidChannel(ch: int)
  {
    0 <= ch < CHANNELS_PER_RELAY
  }

  /** The two outputs of one bricklet. */
  datatype Channels = Channels(c0: bool, c1: bool) {
    function Get(ch: int): bool
      requires ValidChannel(ch)
    {
      if ch == 0 then c0 else c1
    }

    function With(ch: int, on: bool): Channels
      requires ValidChannel(ch)
    {
      if ch == 0 then Channels(on, c1) else Channels(c0, on)
    }
  }

  /** What the bricklet does during one command; a failed write may leave its outputs anywhere. */
  datatype WriteReply = Written | Failed(left: Channels)
  datatype Io = Io(readOk: bool, write: WriteReply)

  /** The controller's shadow state and the physical outputs of the bricklets that exist. */
  datatype Relays = Relays(defaultUid: string, shadow: map<string, Channels>, hw: map<string, Channels>)

  datatype Outlet = Outlet(uid: string, ch: int)

  datatype Command = Command(uid: string, ch: int, on: bool, io: Io)

  function Resolve(uid: string, fallback: string): string
  {
    if uid == "" then fallback else uid
  }

  function Target(r: Relays, c: Command): Outlet
  {
    Outlet(Resolve(c.uid, r.defaultUid), c.ch)
  }

  /** One serialised `setChannel`: the new state, and whether the call reported success. */
  function SetChannel(r: Relays, c: Command): (Relays, bool)
  {
    var uid := Resolve(c.uid, r.defaultUid);
    if !ValidChannel(c.ch) then (r, false)
    else if uid !in r.shadow && !(c.io.readOk && uid in r.hw) then (r, false)
    else
      var desired := if uid in r.shadow then r.shadow[uid] else r.hw[uid];
      var next := desired.With(c.ch, c.on);
      match c.io.write
      case Failed(left) =>
        // the adopted state is already recorded when the write fails
        (r.(shadow := r.shadow[uid := desired],
         hw := if uid in r.hw then r.hw[uid := left] else r.hw), false)
      case Written =>
        (r.(shadow := r.shadow[uid := next], hw := r.hw[uid := next]), true)
  }

  /** The three ways a command can go: rejected or unreadable, failed half way, or written. */
  lemma Steps(r: Relays, c: Command)
    ensures !Writes(r, c) ==> SetChannel(r, c) == (r, false)
    ensures Writes(r, c) ==>
              var uid := Target(r, c).uid;
              var base := if uid in r.shadow then r.shadow[uid] else r.hw[uid];
              var adopted := if uid in r.shadow then r.shadow else r.shadow[uid := base];
              SetChannel(r, c) ==
              if c.io.write.Written? then (r.(shadow := adopted[uid := base.With(c.ch, c.on)], hw := r.hw[uid := base.With(c.ch, c.on)]), true)
              else (r.(shadow := adopted, hw := if uid in r.hw then r.hw[uid := c.io.write.left] else r.hw), false)
  {
    var uid := Target(r, c).uid;
    if Writes(r, c) {
      var base := if uid in r.shadow then r.shadow[uid] else r.hw[uid];
      if uid in r.shadow {
        assert r.shadow[uid := base] == r.shadow;
      } else {
        assert r.shadow[uid := base][uid := base.With(c.ch, c.on)] == r.shadow[uid := base.With(c.ch, c.on)];
      }
    }
  }

  /**
   A command in the caller's terms: it succeeds exactly on channel 0 or 1 of a relay that is known or can be read,
   if the write does; it then sets that channel in shadow and hardware and keeps the sibling as it was last set.
   A failed write leaves the adopted pair in the shadow, and anything else leaves everything as it was.
   */
  lemma SetsTheChannel(r: Relays, c: Command)
    ensures var uid := if c.uid == "" then r.defaultUid else c.uid;
            var reached := (c.ch == 0 || c.ch == 1) && (uid in r.shadow || (c.io.readOk && uid in r.hw));
            var (r', ok) := SetChannel(r, c);
            && (ok <==> reached && c.io.write.Written?)
            && (!reached ==> r' == r)
            && (reached ==>
                  var was := if uid in r.shadow then r.shadow[uid] else r.hw[uid];
                  var next := if c.ch == 0 then Channels(c.on, was.c1) else Channels(was.c0, c.on);
                  && r'.shadow == r.shadow[uid := if ok then next else was] && r'.defaultUid == r.defaultUid
                  && r'.hw == if ok then r.hw[uid := next] else if uid in r.hw then r.hw[uid := c.io.write.left] else r.hw)
  {
  }

  // ---------- what a command does to the outlets ----------

  /** The position the controller wants an outlet in: its shadow once the relay is known, the hardware before. */
  predicate Position(r: Relays, o: Outlet)
  {
    ValidChannel(o.ch) &&
    if o.uid in r.shadow then r.shadow[o.uid].Get(o.ch) else o.uid in r.hw && r.hw[o.uid].Get(o.ch)
  }

  /** The physical position of an outlet. */
  predicate Physical(r: Relays, o: Outlet)
  {
    ValidChannel(o.ch) && o.uid in r.hw && r.hw[o.uid].Get(o.ch)
  }

  /** A successful command sets its own outlet, a failed one sets none, and no other outlet moves. */
  lemma CommandSetsOneOutlet(r: Relays, c: Command, o: Outlet)
    ensures var (r', ok) := SetChannel(r, c);
            Position(r', o) == if ok && o == Target(r, c) then c.on else Position(r, o)
  {
  }

  /** After a successful call the relay's hardware equals its shadow, whatever earlier failed writes had left there. */
  lemma SuccessSyncs(r: Relays, c: Command)
    requires SetChannel(r, c).1
    ensures var (r', _) := SetChannel(r, c);
            var uid := Target(r, c).uid;
            && uid in r'.shadow && uid in r'.hw && r'.hw[uid] == r'.shadow[uid]
            && r'.hw[uid].Get(c.ch) == c.on
  {
  }

  /** A failed write leaves the bricklet as it was. */
  predicate Clean(r: Relays, c: Command)
  {
    c.io.write.Failed? && Target(r, c).uid in r.hw ==> c.io.write.left == r.hw[Target(r, c).uid]
  }

  /** The shadow of every known relay is its hardware. */
  predicate Agree(r: Relays)
  {
    forall uid :: uid in r.shadow ==> uid in r.hw && r.hw[uid] == r.shadow[uid]
  }

  /** Whether this command reaches its write at all. */
  predicate Writes(r: Relays, c: Command)
  {
    ValidChannel(c.ch) && (Target(r, c).uid in r.shadow || (c.io.readOk && Target(r, c).uid in r.hw))
  }

  /** From agreement, a command keeps it exactly when it does not fail half way and move the hardware. */
  lemma AgreeExactly(r: Relays, c: Command)
    requires Agree(r)
    ensures Agree(SetChannel(r, c).0) <==> !Writes(r, c) || Clean(r, c)
  {
    var r' := SetChannel(r, c).0;
    var uid := Target(r, c).uid;
    if Writes(r, c) && Agree(r') {
      assert uid in r'.shadow;
    }
  }

  /** Under agreement and clean writes the physical outlets move exactly as commanded. */
  lemma PhysicalFollows(r: Relays, c: Command, o: Outlet)
    requires Agree(r) && Clean(r, c)
    ensures var (r', ok) := SetChannel(r, c);
            && Agree(r') && r'.defaultUid == r.defaultUid
            && Physical(r', o) == if ok && o == Target(r, c) then c.on else Physical(r, o)
  {
    AgreeExactly(r, c);
  }

  /** What the next write starts from: the shadow of a known relay, else the adopted hardware. */
  function Base(r: Relays, uid: string): Channels
  {
    if uid in r.shadow then r.shadow[uid] else if uid in r.hw then r.hw[uid] else Channels(false, false)
  }

  lemma SuccessShape(r: Relays, c: Command)
    requires SetChannel(r, c).1
    ensures ValidChannel(c.ch)
    ensures var o := Target(r, c);
            var next := Base(r, o.uid).With(o.ch, c.on);
            SetChannel(r, c).0 == r.(shadow := r.shadow[o.uid := next], hw := r.hw[o.uid := next])
  {
  }

  lemma UpdatesCommute<T>(m: map<string, T>, u: string, x: T, v: string, y: T)
    requires u != v
    ensures m[u := x][v := y] == m[v := y][u := x]
  {
  }

  /** Two successful commands on different outlets commute. */
  lemma CommandsCommute(r: Relays, a: Command, b: Command)
    requires Target(r, a) != Target(r, b)
    requires SetChannel(r, a).1 && SetChannel(SetChannel(r, a).0, b).1
    requires SetChannel(r, b).1 && SetChannel(SetChannel(r, b).0, a).1
    ensures SetChannel(SetChannel(r, a).0, b).0 == SetChannel(SetChannel(r, b).0, a).0
  {
    SuccessShape(r, a);
    SuccessShape(r, b);
    SuccessShape(SetChannel(r, a).0, b);
    SuccessShape(SetChannel(r, b).0, a);
    hide SetChannel;
    var u, v := Target(r, a), Target(r, b);
    if u.uid == v.uid {
      var both := Base(r, u.uid).With(u.ch, a.on).With(v.ch, b.on);
      assert both == Base(r, u.uid).With(v.ch, b.on).With(u.ch, a.on);
      assert r.shadow[u.uid := both] == r.shadow[u.uid := Base(r, u.uid).With(u.ch, a.on)][u.uid := both];
    } else {
      UpdatesCommute(r.shadow, u.uid, Base(r, u.uid).With(u.ch, a.on), v.uid, Base(r, v.uid).With(v.ch, b.on));
      UpdatesCommute(r.hw, u.uid, Base(r, u.uid).With(u.ch, a.on), v.uid, Base(r, v.uid).With(v.ch, b.on));
    }
  }

  // ---------- runs of commands ----------

  /** Any interleaving of serialised calls is a sequence of commands. */
  function RunCommands(r: Relays, cs: seq<Command>): Relays
  {
    if cs == [] then r else SetChannel(RunCommands(r, cs[..|cs| - 1]), cs[|cs| - 1]).0
  }

  lemma RunOneMore(r: Relays, cs: seq<Command>, c: Command)
    ensures RunCommands(r, cs + [c]) == SetChannel(RunCommands(r, cs), c).0
  {
    assert (cs + [c])[..|cs|] == cs;
  }

  /** Which calls of the sequence report success. */
  predicate Reported(r: Relays, cs: seq<Command>, i: nat)
    requires i < |cs|
  {
    SetChannel(RunCommands(r, cs[..i]), cs[i]).1
  }

  /** The flat reference: the last successful command on an outlet wins, else it keeps its first position. */
  predicate LastWins(r: Relays, cs: seq<Command>, o: Outlet)
  {
    if cs == [] then Position(r, o)
    else if Reported(r, cs, |cs| - 1) && Target(r, cs[|cs| - 1]) == o then cs[|cs| - 1].on
    else LastWins(r, cs[..|cs| - 1], o)
  }

  lemma {:induction false} DefaultKept(r: Relays, cs: seq<Command>)
    ensures RunCommands(r, cs).defaultUid == r.defaultUid
  {
    if cs != [] {
      DefaultKept(r, cs[..|cs| - 1]);
    }
  }

  lemma PrefixReported(r: Relays, cs: seq<Command>, i: nat)
    requires i < |cs| - 1
    ensures Reported(r, cs[..|cs| - 1], i) == Reported(r, cs, i)
  {
    assert cs[..|cs| - 1][..i] == cs[..i];
  }

  /** Every sequence of calls refines the flat map from outlet to position. */
  lemma {:induction false} RunRefinesFlatMap(r: Relays, cs: seq<Command>, o: Outlet)
    ensures Position(RunCommands(r, cs), o) == LastWins(r, cs, o)
  {
    if cs != [] {
      var front := cs[..|cs| - 1];
      RunRefinesFlatMap(r, front, o);
      DefaultKept(r, front);
      CommandSetsOneOutlet(RunCommands(r, front), cs[|cs| - 1], o);
    }
  }

  /** In particular an outlet's position is that of its last successful command, however many others came between. */
  lemma {:induction false} LastSuccessfulWins(r: Relays, cs: seq<Command>, i: nat, o: Outlet)
    requires i < |cs| && Reported(r, cs, i) && Target(r, cs[i]) == o
    requires forall j :: i < j < |cs| ==> !(Reported(r, cs, j) && Target(r, cs[j]) == o)
    ensures Position(RunCommands(r, cs), o) == cs[i].on
    decreases |cs|
  {
    RunRefinesFlatMap(r, cs, o);
    if i < |cs| - 1 {
      var front := cs[..|cs| - 1];
      PrefixReported(r, cs, i);
      forall j | i < j < |front| ensures !(Reported(r, front, j) && Target(r, front[j]) == o) {
        PrefixReported(r, cs, j);
      }
      LastSuccessfulWins(r, front, i, o);
      RunRefinesFlatMap(r, front, o);
    }
  }
}
