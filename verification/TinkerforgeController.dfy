/** The relay controller as it runs: shadow state updated in place, against the bricklets it drives. */
module TinkerforgeController {
  import opened Relay

  class Controller {
    const defaultUid: string
    var state: map<string, array<bool>>
    /** The physical outputs; nothing but a read or a write of a bricklet touches them. */
    var hw: map<string, Channels>

    ghost function Arrays(): set<array<bool>>
      reads this`state
    {
      set uid | uid in state :: state[uid]
    }

    /** Every relay has its own pair of positions. */
    ghost predicate Valid()
      reads this`state, Arrays()
    {
      && (forall uid :: uid in state ==> state[uid].Length == CHANNELS_PER_RELAY)
      && (forall a, b :: a in state && b in state && a != b ==> state[a] != state[b])
    }

    ghost function Shadow(): map<string, Channels>
      reads this`state, Arrays()
      requires Valid()
    {
      map uid | uid in state :: Channels(state[uid][0], state[uid][1])
    }

    ghost function View(): Relays
      reads this, Arrays()
      requires Valid()
    {
      Relays(defaultUid, Shadow(), hw)
    }

    constructor (defaultUid: string, hw: map<string, Channels>)
      ensures Valid() && View() == Relays(defaultUid, map[], hw)
    {
      this.defaultUid := defaultUid;
      this.state := map[];
      this.hw := hw;
    }

    method ReadState(uid: string, io: Io) returns (out: array<bool>, ok: bool)
      ensures fresh(out) && out.Length == CHANNELS_PER_RELAY
      ensures ok == (io.readOk && uid in hw)
      ensures ok ==> Channels(out[0], out[1]) == hw[uid]
    {
      out := new bool[CHANNELS_PER_RELAY](_ => false);
      ok := io.readOk && uid in hw;
      if ok {
        out[0], out[1] := hw[uid].c0, hw[uid].c1;
      }
    }

    method WriteState(uid: string, next: Channels, io: Io) returns (ok: bool)
      modifies this`hw
      ensures ok == io.write.Written?
      ensures hw == match io.write
                    case Written => old(hw)[uid := next]
                    case Failed(left) => if uid in old(hw) then old(hw)[uid := left] else old(hw)
    {
      match io.write
      case Written =>
        hw := hw[uid := next];
        ok := true;
      case Failed(left) =>
        if uid in hw {
          hw := hw[uid := left];
        }
        ok := false;
    }

    /** The first time a relay is touched its current outputs become the shadow. */
    method Adopt(uid: string, io: Io) returns (known: bool)
      requires Valid()
      modifies this`state
      ensures Valid() && fresh(Arrays() - old(Arrays()))
      ensures known == (uid in old(state) || (io.readOk && uid in hw))
      ensures known ==> uid in state
      ensures View() == if known && uid !in old(state)
                        then old(View()).(shadow := old(View()).shadow[uid := hw[uid]]) else old(View())
    {
      known := true;
      if uid !in state {
        var initial, read := ReadState(uid, io);
        if !read {
          return false;
        }
        state := state[uid := initial];
        assert View().shadow == old(View()).shadow[uid := hw[uid]];
      }
    }

    /** Overwrites one relay's pair in place; the pairs of the others are other arrays. */
    method Record(uid: string, next: Channels)
      requires Valid() && uid in state
      modifies state[uid]
      ensures Valid() && Shadow() == old(Shadow())[uid := next]
    {
      var desired := state[uid];
      desired[0], desired[1] := next.c0, next.c1;
      assert Shadow().Keys == old(Shadow())[uid := next].Keys;
    }

    /** One command, under the mutex: exactly the step of the value-level relay, and its verdict. */
    method SetOneChannel(relayUid: string, channel: int, on: bool, io: Io) returns (ok: bool)
      requires Valid()
      modifies this, Arrays()
      ensures Valid() && fresh(Arrays() - old(Arrays()))
      ensures (View(), ok) == SetChannel(old(View()), Command(relayUid, channel, on, io))
      ensures var uid := if relayUid == "" then defaultUid else relayUid;
              && (ok <==> (channel == 0 || channel == 1) && (uid in old(state) || (io.readOk && uid in old(hw))) && io.write.Written?)
              && (ok ==> uid in hw && (if channel == 0 then hw[uid].c0 else hw[uid].c1) == on)
              && (forall other :: other != uid ==> (other in hw <==> other in old(hw)) && (other in hw ==> hw[other] == old(hw)[other]))
    {
      SetsTheChannel(View(), Command(relayUid, channel, on, io));
      hide SetChannel;
      Steps(View(), Command(relayUid, channel, on, io));
      var uid := if relayUid == "" then defaultUid else relayUid;
      if channel < 0 || channel >= CHANNELS_PER_RELAY {
        return false;
      }
      var known := Adopt(uid, io);
      if !known {
        return false;
      }
      // the pair is copied, changed, written, and only then recorded
      var next := Channels(state[uid][0], state[uid][1]).With(channel, on);
      assert Shadow()[uid] == Channels(state[uid][0], state[uid][1]);
      ghost var adopted := Shadow();
      ok := WriteState(uid, next, io);
      if !ok {
        return false;
      }
      assert Shadow() == adopted;
      Record(uid, next);
      assert View() == old(View()).(shadow := adopted[uid := next], hw := old(hw)[uid := next]);
    }

    method PowerOn(relayUid: string, channel: int, io: Io) returns (ok: bool)
      requires Valid()
      modifies this, Arrays()
      ensures Valid() && fresh(Arrays() - old(Arrays()))
      ensures (View(), ok) == SetChannel(old(View()), Command(relayUid, channel, true, io))
    {
      ok := SetOneChannel(relayUid, channel, true, io);
    }

    method PowerOff(relayUid: string, channel: int, io: Io) returns (ok: bool)
      requires Valid()
      modifies this, Arrays()
      ensures Valid() && fresh(Arrays() - old(Arrays()))
      ensures (View(), ok) == SetChannel(old(View()), Command(relayUid, channel, false, io))
    {
      ok := SetOneChannel(relayUid, channel, false, io);
    }
  }
}
