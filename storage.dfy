/**
 * GameStorage (app/services/storage.py): the authoritative in-memory store of
 * pets, users and cursor positions, its owner-gated actions, one sweep of the
 * decay loop and its persistence policy.
 *
 * Each method runs to completion without interleaving, as a handler does on
 * the asyncio loop. Broadcasts the source spawns as fire-and-forget tasks are
 * appended to `outbox` (only when a connection manager is set); a write of
 * game_data.json is a snapshot appended to `saved`. Clock readings, uuids and
 * random choices are parameters.
 */
module Storage {
  import opened Common
  import opened Pets
  import opened Persistence

  /** The content of one write of game_data.json. */
  datatype Snapshot = Snapshot(pets: map<string, Pet>, cursors: map<string, Cursor>)

  /** The record invariant every stored pet keeps. */
  ghost predicate WellFormed(k: string, p: Pet) {
    && p.id == k
    && StatsInRange(p)
    && (p.alive <==> p.health > 0)
    && (p.alive <==> p.status != Dead)
    && InWorld(p.position)
  }

  /** What a change does to the persistence state: debounce it, or flush at once. */
  function Persisted(s: Saver, log: seq<Snapshot>, snap: Snapshot, immediate: bool): (Saver, seq<Snapshot>) {
    if immediate then
      var st := Flush(s);
      (st.saver, log + if st.wrote then [snap] else [])
    else (Schedule(s), log)
  }

  /** feed, play and sleep act only for the owner of an existing, alive pet. */
  ghost predicate OwnerActionAllowed(pets: map<string, Pet>, caller: string, id: string) {
    id in pets && pets[id].owner == caller && pets[id].alive
  }

  /** support acts only for someone else's existing, alive pet. */
  ghost predicate SupportAllowed(pets: map<string, Pet>, supporter: string, id: string) {
    id in pets && pets[id].alive && pets[id].owner != supporter
  }

  /** revive and release act only for the owner of an existing pet, alive or not. */
  ghost predicate OwnerOf(pets: map<string, Pet>, caller: string, id: string) {
    id in pets && pets[id].owner == caller
  }

  ghost function AliveIds(pets: map<string, Pet>): set<string> {
    set k | k in pets && pets[k].alive
  }

  ghost function OwnedIds(pets: map<string, Pet>, user: string): set<string> {
    set k | k in pets && pets[k].owner == user
  }

  /** The map after one sweep of the decay loop. */
  ghost function DecayAll(pets: map<string, Pet>, users: map<string, User>, now: real): map<string, Pet> {
    map k | k in pets :: DecayEntry(pets[k], users, now)
  }

  /** Some pet that was alive before the sweep is dead after it. */
  ghost predicate Died(before: map<string, Pet>, after: map<string, Pet>) {
    exists k :: k in before && k in after && before[k].alive && !after[k].alive
  }

  lemma ActionsKeepWellFormed(k: string, p: Pet, now: real)
    requires WellFormed(k, p) && p.alive
    ensures WellFormed(k, Fed(p, now)) && WellFormed(k, Played(p, now)) && WellFormed(k, Slept(p, now))
    ensures WellFormed(k, Supported(p))
    ensures Fed(p, now).alive && Played(p, now).alive && Slept(p, now).alive && Supported(p).alive
  {
    ActionsKeepPositiveHealth(p, now);
    FeedRule(p, now);
    PlayRule(p, now);
    SleepRule(p, now);
    SupportRule(p);
  }

  lemma {:induction false} DecayKeepsWellFormed(k: string, p: Pet, users: map<string, User>, now: real)
    requires WellFormed(k, p)
    ensures WellFormed(k, DecayEntry(p, users, now))
  {
    if p.alive {
      DecayRule(p, EffectiveDifficulty(users, p.owner), now);
    }
  }

  /** A sweep leaves dead pets exactly as they were and keeps every record well formed. */
  lemma {:induction false} DecayAllRule(pets: map<string, Pet>, users: map<string, User>, now: real)
    requires forall k :: k in pets ==> WellFormed(k, pets[k])
    ensures DecayAll(pets, users, now).Keys == pets.Keys
    ensures forall k :: k in pets && !pets[k].alive ==> DecayAll(pets, users, now)[k] == pets[k]
    ensures forall k :: k in pets ==> WellFormed(k, DecayAll(pets, users, now)[k])
  {
    forall k | k in pets
      ensures WellFormed(k, DecayAll(pets, users, now)[k])
    {
      DecayKeepsWellFormed(k, pets[k], users, now);
    }
  }

  class GameStorage {
    var pets: map<string, Pet>      // `tamagotchis`
    var users: map<string, User>
    var mouse: map<string, Cursor>  // `mouse_positions`
    var saver: Saver                // `_dirty` and `_save_task`
    var saved: seq<Snapshot>        // every write of game_data.json, oldest first
    var manager: bool               // a connection manager has been injected
    var outbox: seq<Event>          // broadcasts handed to the connection manager

    ghost predicate Valid()
      reads this
    {
      && Inv(saver)
      && forall k :: k in pets ==> WellFormed(k, pets[k])
    }

    /** The state after start-up; reading game_data.json and the user table is not modelled. */
    constructor (users: map<string, User>, manager: bool)
      ensures Valid()
      ensures this.pets == map[] && this.users == users && this.mouse == map[]
      ensures this.saver == INITIAL && this.saved == [] && this.manager == manager && this.outbox == []
    {
      this.pets := map[];
      this.users := users;
      this.mouse := map[];
      this.saver := INITIAL;
      this.saved := [];
      this.manager := manager;
      this.outbox := [];
    }

    function Announce(e: Event): seq<Event>
      reads this`manager
    {
      if manager then [e] else []
    }

    function AnyAlive(): bool
      reads this`pets
    {
      exists k | k in pets :: pets[k].alive
    }

    // -------------------------------------------------------------------------
    // Persistence

    method ScheduleSave()
      requires Inv(saver)
      modifies this`saver
      ensures saver == Schedule(old(saver)) && Inv(saver)
    {
      StepKeepsInv(saver, SaverEvent.ScheduleSave);
      saver := Schedule(saver);
    }

    method FlushSave()
      requires Inv(saver)
      modifies this`saver, this`saved
      ensures saver == Flush(old(saver)).saver && Inv(saver)
      ensures saved == old(saved) + if Flush(old(saver)).wrote then [Snapshot(pets, mouse)] else []
    {
      StepKeepsInv(saver, SaverEvent.FlushSave);
      var st := Flush(saver);
      saver := st.saver;
      if st.wrote {
        saved := saved + [Snapshot(pets, mouse)];
      }
    }

    /** Debounce worker `task` wakes from its sleep. */
    method SaveTimerFires(task: nat)
      requires Inv(saver)
      modifies this`saver, this`saved
      ensures saver == Fire(old(saver), task, ClearIfOwn).saver && Inv(saver)
      ensures saved == old(saved) + if Fire(old(saver), task, ClearIfOwn).wrote then [Snapshot(pets, mouse)] else []
    {
      StepKeepsInv(saver, TimerFires(task));
      var st := Fire(saver, task, ClearIfOwn);
      saver := st.saver;
      if st.wrote {
        saved := saved + [Snapshot(pets, mouse)];
      }
    }

    /** Debounce worker `task` receives its cancellation. */
    method SaveTaskCancelled(task: nat)
      requires Inv(saver)
      modifies this`saver
      ensures saver == Cancelled(old(saver), task, ClearIfOwn) && Inv(saver)
    {
      StepKeepsInv(saver, CancelDelivered(task));
      saver := Cancelled(saver, task, ClearIfOwn);
    }

    /** One iteration of the backup loop. */
    method BackupSaveTick()
      modifies this`saved
      ensures saved == old(saved) + if AnyAlive() then [Snapshot(pets, mouse)] else []
    {
      var st := Backup(saver, exists k | k in pets :: pets[k].alive);
      if st.wrote {
        saved := saved + [Snapshot(pets, mouse)];
      }
    }

    /** The persistence and broadcast tail shared by the stat-changing actions. */
    method Commit(id: string, p: Pet, e: Event)
      requires Valid() && WellFormed(id, p)
      modifies this`pets, this`saver, this`saved, this`outbox
      ensures Valid()
      ensures pets == old(pets)[id := p]
      ensures (saver, saved) == Persisted(old(saver), old(saved), Snapshot(pets, mouse), !p.alive)
      ensures outbox == old(outbox) + Announce(e)
    {
      pets := pets[id := p];
      if p.alive {
        ScheduleSave();
      } else {
        FlushSave();
      }
      outbox := outbox + Announce(e);
    }

    // -------------------------------------------------------------------------
    // Owner actions

    method FeedTamagotchi(caller: string, id: string, now: real) returns (r: Option<Pet>)
      requires Valid()
      modifies this`pets, this`saver, this`saved, this`outbox
      ensures Valid()
      ensures OwnerActionAllowed(old(pets), caller, id) ==>
        && r == Some(Fed(old(pets)[id], now))
        && pets == old(pets)[id := r.value]
        && (saver, saved) == Persisted(old(saver), old(saved), Snapshot(pets, mouse), !r.value.alive)
        && outbox == old(outbox) + Announce(StatsUpdate(Summarize(r.value)))
      ensures !OwnerActionAllowed(old(pets), caller, id) ==>
        r == None && pets == old(pets) && saver == old(saver) && saved == old(saved) && outbox == old(outbox)
    {
      if id !in pets || pets[id].owner != caller || !pets[id].alive {
        return None;
      }
      var p := pets[id];
      ActionsKeepWellFormed(id, p, now);
      p := p.(hunger := Max(0, p.hunger - 15));
      if p.hunger < 80 {
        p := p.(health := Min(100, p.health + 2));
      }
      p := Restatus(p.(lastFed := now));
      Commit(id, p, StatsUpdate(Summarize(p)));
      r := Some(p);
    }

    method PlayTamagotchi(caller: string, id: string, now: real) returns (r: Option<Pet>)
      requires Valid()
      modifies this`pets, this`saver, this`saved, this`outbox
      ensures Valid()
      ensures OwnerActionAllowed(old(pets), caller, id) ==>
        && r == Some(Played(old(pets)[id], now))
        && pets == old(pets)[id := r.value]
        && (saver, saved) == Persisted(old(saver), old(saved), Snapshot(pets, mouse), !r.value.alive)
        && outbox == old(outbox) + Announce(StatsUpdate(Summarize(r.value)))
      ensures !OwnerActionAllowed(old(pets), caller, id) ==>
        r == None && pets == old(pets) && saver == old(saver) && saved == old(saved) && outbox == old(outbox)
    {
      if id !in pets || pets[id].owner != caller || !pets[id].alive {
        return None;
      }
      var p := pets[id];
      ActionsKeepWellFormed(id, p, now);
      p := p.(happiness := Min(100, p.happiness + 12));
      p := p.(energy := Max(0, p.energy - 5));
      p := Restatus(p.(lastPlayed := now));
      Commit(id, p, StatsUpdate(Summarize(p)));
      r := Some(p);
    }

    method SleepTamagotchi(caller: string, id: string, now: real) returns (r: Option<Pet>)
      requires Valid()
      modifies this`pets, this`saver, this`saved, this`outbox
      ensures Valid()
      ensures OwnerActionAllowed(old(pets), caller, id) ==>
        && r == Some(Slept(old(pets)[id], now))
        && pets == old(pets)[id := r.value]
        && (saver, saved) == Persisted(old(saver), old(saved), Snapshot(pets, mouse), !r.value.alive)
        && outbox == old(outbox) + Announce(StatsUpdate(Summarize(r.value)))
      ensures !OwnerActionAllowed(old(pets), caller, id) ==>
        r == None && pets == old(pets) && saver == old(saver) && saved == old(saved) && outbox == old(outbox)
    {
      if id !in pets || pets[id].owner != caller || !pets[id].alive {
        return None;
      }
      var p := pets[id];
      ActionsKeepWellFormed(id, p, now);
      p := p.(energy := Min(100, p.energy + 15));
      if p.energy > 90 {
        p := p.(happiness := Max(0, p.happiness - 2));
      }
      p := Restatus(p.(lastSlept := now));
      Commit(id, p, StatsUpdate(Summarize(p)));
      r := Some(p);
    }

    /** A non-owner nudges the pet's lowest stat (see Pets.Lowest). */
    method SupportTamagotchi(supporter: string, id: string) returns (r: Option<Pet>)
      requires Valid()
      modifies this`pets, this`saver, this`saved, this`outbox
      ensures Valid()
      ensures SupportAllowed(old(pets), supporter, id) ==>
        && r == Some(Supported(old(pets)[id]))
        && pets == old(pets)[id := r.value]
        && (saver, saved) == Persisted(old(saver), old(saved), Snapshot(pets, mouse), !r.value.alive)
        && outbox == old(outbox) + Announce(StatsUpdate(Summarize(r.value)))
      ensures !SupportAllowed(old(pets), supporter, id) ==>
        r == None && pets == old(pets) && saver == old(saver) && saved == old(saved) && outbox == old(outbox)
    {
      if id !in pets || !pets[id].alive || pets[id].owner == supporter {
        return None;
      }
      var p := pets[id];
      ActionsKeepWellFormed(id, p, 0.0);
      match Lowest(p) {
        case HungerStat => p := p.(hunger := Max(0, p.hunger - 1));
        case HappinessStat => p := p.(happiness := Min(100, p.happiness + 1));
        case EnergyStat => p := p.(energy := Min(100, p.energy + 1));
        case HealthStat => p := p.(health := Min(100, p.health + 1));
      }
      p := Restatus(p);
      Commit(id, p, StatsUpdate(Summarize(p)));
      r := Some(p);
    }

    /** The owner revives the pet whatever its state; a major event, so the store flushes. */
    method ReviveTamagotchi(caller: string, id: string, now: real) returns (r: Option<Pet>)
      requires Valid()
      modifies this`pets, this`saver, this`saved, this`outbox
      ensures Valid()
      ensures OwnerOf(old(pets), caller, id) ==>
        && r == Some(Revived(old(pets)[id], now))
        && pets == old(pets)[id := r.value]
        && (saver, saved) == Persisted(old(saver), old(saved), Snapshot(pets, mouse), true)
        && outbox == old(outbox) + Announce(StatsUpdate(Summarize(r.value)))
      ensures !OwnerOf(old(pets), caller, id) ==>
        r == None && pets == old(pets) && saver == old(saver) && saved == old(saved) && outbox == old(outbox)
    {
      if id !in pets || pets[id].owner != caller {
        return None;
      }
      var p := Revived(pets[id], now);
      pets := pets[id := p];
      FlushSave();
      outbox := outbox + Announce(StatsUpdate(Summarize(p)));
      r := Some(p);
    }

    /** The owner removes the pet; exactly that key goes. */
    method ReleaseTamagotchi(caller: string, id: string) returns (ok: bool)
      requires Valid()
      modifies this`pets, this`saver, this`saved, this`outbox
      ensures Valid()
      ensures ok == OwnerOf(old(pets), caller, id)
      ensures ok ==>
        && pets == old(pets) - {id}
        && (saver, saved) == Persisted(old(saver), old(saved), Snapshot(pets, mouse), true)
        && outbox == old(outbox) + Announce(PetRemoved(id))
      ensures !ok ==> pets == old(pets) && saver == old(saver) && saved == old(saved) && outbox == old(outbox)
    {
      if id !in pets || pets[id].owner != caller {
        return false;
      }
      pets := pets - {id};
      FlushSave();
      outbox := outbox + Announce(PetRemoved(id));
      ok := true;
    }

    /** A new pet for `owner`; `id`, the spawn point, heading and emoji are the random choices. */
    method CreateTamagotchi(name: string, owner: string, id: string, x: real, y: real, direction: real,
                            emoji: string, now: real) returns (p: Pet)
      requires Valid()
      requires id !in pets
      requires SpawnChoice(x, y, direction, emoji)
      modifies this`pets, this`saver, this`saved, this`outbox
      ensures Valid()
      ensures p == NewPet(id, name, owner, x, y, direction, emoji, now)
      ensures pets == old(pets)[id := p]
      ensures (saver, saved) == Persisted(old(saver), old(saved), Snapshot(pets, mouse), true)
      ensures outbox == old(outbox) + Announce(PetCreated(p))
    {
      p := NewPet(id, name, owner, x, y, direction, emoji, now);
      pets := pets[id := p];
      FlushSave();
      outbox := outbox + Announce(PetCreated(p));
    }

    /** Any caller may move any pet; the store itself checks nothing but existence. */
    method UpdateTamagotchiLocation(id: string, x: real, y: real) returns (r: Option<Pet>)
      requires Valid()
      modifies this`pets, this`saver, this`outbox
      ensures Valid()
      ensures id in old(pets) ==>
        && r == Some(Relocated(old(pets)[id], x, y))
        && pets == old(pets)[id := r.value]
        && saver == Schedule(old(saver))
        && outbox == old(outbox) + Announce(PositionUpdate(id, r.value.position.x, r.value.position.y,
                                                           r.value.position.direction.value))
      ensures id !in old(pets) ==> r == None && pets == old(pets) && saver == old(saver) && outbox == old(outbox)
    {
      if id !in pets {
        return None;
      }
      var p := Relocated(pets[id], x, y);
      pets := pets[id := p];
      ScheduleSave();
      outbox := outbox + Announce(PositionUpdate(id, p.position.x, p.position.y, p.position.direction.value));
      r := Some(p);
    }

    /** Records a known user's cursor and broadcasts it; no save is scheduled. */
    method UpdateMousePosition(user: string, x: real, y: real, now: real)
      modifies this`users, this`mouse, this`outbox
      ensures user in old(users) ==>
        var c := Cursor(user, old(users)[user].username, x, y, now);
        && users == old(users)[user := old(users)[user].(mouseX := x, mouseY := y)]
        && mouse == old(mouse)[user := c]
        && outbox == old(outbox) + Announce(MousePosition(c))
      ensures user !in old(users) ==> users == old(users) && mouse == old(mouse) && outbox == old(outbox)
    {
      if user in users {
        var u := users[user].(mouseX := x, mouseY := y);
        users := users[user := u];
        var c := Cursor(user, u.username, x, y, now);
        mouse := mouse[user := c];
        outbox := outbox + Announce(MousePosition(c));
      }
    }

    method SetUserOnline(user: string, online: bool)
      requires Valid()
      modifies this`users, this`saver
      ensures Valid()
      ensures user in old(users) ==>
        users == old(users)[user := old(users)[user].(online := online)] && saver == Schedule(old(saver))
      ensures user !in old(users) ==> users == old(users) && saver == old(saver)
    {
      if user in users {
        users := users[user := users[user].(online := online)];
        ScheduleSave();
      }
    }

    /** Stores the normalised multiplier for a known user and schedules a save. */
    method SetUserDifficulty(user: string, raw: Raw) returns (r: Option<User>)
      requires Valid()
      modifies this`users, this`saver
      ensures Valid()
      ensures user in old(users) ==>
        && r == Some(old(users)[user].(difficulty := Some(Number(NormalizeDifficulty(raw)))))
        && users == old(users)[user := r.value]
        && saver == Schedule(old(saver))
      ensures user !in old(users) ==> r == None && users == old(users) && saver == old(saver)
    {
      if user !in users {
        return None;
      }
      var d := match raw case Number(v) => v case NotANumber => 1.0;
      d := ClampReal(MIN_DIFFICULTY, MAX_DIFFICULTY, d);
      var u := users[user].(difficulty := Some(Number(d)));
      users := users[user := u];
      ScheduleSave();
      r := Some(u);
    }

    /** The pets owned by `user`, each once, in the map's iteration order. */
    method GetUserTamagotchis(user: string) returns (r: seq<Pet>)
      requires Valid()
      ensures |r| == |OwnedIds(pets, user)|
      ensures forall p :: p in r ==> p.id in OwnedIds(pets, user) && p == pets[p.id]
      ensures forall i, j :: 0 <= i < j < |r| ==> r[i].id != r[j].id
    {
      var all := pets;
      r := [];
      var todo := all.Keys;
      ghost var ids: set<string> := {};
      while todo != {}
        invariant todo <= all.Keys && ids <= all.Keys - todo
        invariant forall k :: k in all && k !in todo ==> (k in ids <==> all[k].owner == user)
        invariant |r| == |ids|
        invariant forall p :: p in r ==> p.id in ids && p == all[p.id]
        invariant forall i, j :: 0 <= i < j < |r| ==> r[i].id != r[j].id
        decreases |todo|
      {
        var k :| k in todo;
        if all[k].owner == user {
          r := r + [all[k]];
          ids := ids + {k};
        }
        todo := todo - {k};
      }
      assert ids == OwnedIds(all, user);
    }

    /**
     * One iteration of update_stats_loop: every alive pet decays; dead pets are
     * skipped. If any pet was processed, the store flushes when one died and
     * debounces otherwise, and one batch lists every processed pet.
     */
    method UpdateStatsTick(now: real) returns (updated: seq<Summary>)
      requires Valid()
      modifies this`pets, this`saver, this`saved, this`outbox
      ensures Valid()
      ensures pets == DecayAll(old(pets), users, now)
      ensures Batch(old(pets), pets, updated)
      ensures updated == [] ==> saver == old(saver) && saved == old(saved) && outbox == old(outbox)
      ensures updated != [] ==>
        && (saver, saved) == Persisted(old(saver), old(saved), Snapshot(pets, mouse), Died(old(pets), pets))
        && outbox == old(outbox) + Announce(StatsBatch(updated))
    {
      var next, deathOccurred;
      next, updated, deathOccurred := Sweep(pets, users, now);
      pets := next;
      PublishSweep(updated, deathOccurred);
    }

    /** The tail of one sweep: persist and broadcast when some pet was processed. */
    method PublishSweep(updated: seq<Summary>, deathOccurred: bool)
      requires Inv(saver)
      modifies this`saver, this`saved, this`outbox
      ensures Inv(saver)
      ensures updated == [] ==> saver == old(saver) && saved == old(saved) && outbox == old(outbox)
      ensures updated != [] ==>
        && (saver, saved) == Persisted(old(saver), old(saved), Snapshot(pets, mouse), deathOccurred)
        && outbox == old(outbox) + Announce(StatsBatch(updated))
    {
      if |updated| > 0 {
        if deathOccurred {
          FlushSave();
        } else {
          ScheduleSave();
        }
        outbox := outbox + Announce(StatsBatch(updated));
      }
    }
  }

  /** The loop variables of one sweep: the map, the pets listed so far, whether one died. */
  datatype SweepState = SweepState(pets: map<string, Pet>, updated: seq<Summary>, died: bool)

  /** The loop body for key `k` with per-pet rule `step`: skip a dead pet, otherwise apply the rule, list the pet and note a death. */
  function SweepStep(st: SweepState, k: string, step: Pet -> Pet): (r: SweepState)
    requires k in st.pets
    ensures r.pets.Keys == st.pets.Keys
  {
    var p := st.pets[k];
    if !p.alive then st
    else
      var q := step(p);
      SweepState(st.pets[k := q], st.updated + [Summarize(q)], st.died || !q.alive)
  }

  /** The loop run over the keys in `order`, one after the other. */
  function SweepOver(pets: map<string, Pet>, step: Pet -> Pet, order: seq<string>): (r: SweepState)
    requires forall k :: k in order ==> k in pets
    ensures r.pets.Keys == pets.Keys
    decreases |order|
  {
    if order == [] then SweepState(pets, [], false)
    else
      var last := |order| - 1;
      SweepStep(SweepOver(pets, step, order[..last]), order[last], step)
  }

  /** The decay loop's per-pet rule at clock `now`. */
  function DecayStep(users: map<string, User>, now: real): Pet -> Pet {
    p => DecayEntry(p, users, now)
  }

  /** The keys in `order` whose pets are alive in `pets`. */
  ghost function AliveIn(pets: map<string, Pet>, order: seq<string>): set<string>
    decreases |order|
  {
    if order == [] then {}
    else
      var k := order[|order| - 1];
      AliveIn(pets, order[..|order| - 1]) + if k in pets && pets[k].alive then {k} else {}
  }

  lemma {:induction false} AliveInMembers(pets: map<string, Pet>, order: seq<string>)
    ensures forall k :: k in AliveIn(pets, order) <==> k in order && k in pets && pets[k].alive
    decreases |order|
  {
    if order != [] {
      var init := order[..|order| - 1];
      AliveInMembers(pets, init);
      assert order == init + [order[|order| - 1]];
    }
  }

  lemma SweepOverAppend(pets: map<string, Pet>, step: Pet -> Pet, order: seq<string>, k: string)
    requires forall j :: j in order ==> j in pets
    requires k in pets
    ensures SweepOver(pets, step, order + [k]) == SweepStep(SweepOver(pets, step, order), k, step)
  {
    assert (order + [k])[..|order|] == order;
  }

  /** A key the loop has not visited yet still holds its original record. */
  lemma {:induction false} SweepOverUntouched(pets: map<string, Pet>, step: Pet -> Pet, order: seq<string>, k: string)
    requires forall j :: j in order ==> j in pets
    requires k in pets && k !in order
    ensures SweepOver(pets, step, order).pets[k] == pets[k]
  {
    if order != [] {
      SweepOverUntouched(pets, step, order[..|order| - 1], k);
    }
  }

  /** After the loop has visited `order`, exactly the visited alive pets hold the rule's result. */
  lemma {:induction false} SweepOverPets(pets: map<string, Pet>, step: Pet -> Pet, order: seq<string>)
    requires forall k :: k in order ==> k in pets
    requires Unique(order)
    ensures forall k :: k in pets ==>
      SweepOver(pets, step, order).pets[k] == if k in order && pets[k].alive then step(pets[k]) else pets[k]
  {
    if order != [] {
      var init := order[..|order| - 1];
      UniquePrefix(order);
      SweepOverPets(pets, step, init);
      forall k | k in pets
        ensures SweepOver(pets, step, order).pets[k] == if k in order && pets[k].alive then step(pets[k]) else pets[k]
      {
        assert k in order <==> k in init || k == order[|order| - 1];
      }
    }
  }

  /** The batch lists each visited alive pet once, with its record as the loop left it. */
  lemma {:induction false} SweepOverUpdated(pets: map<string, Pet>, step: Pet -> Pet, order: seq<string>)
    requires forall k :: k in order ==> k in pets
    requires forall k :: k in pets ==> pets[k].id == k
    requires forall p :: step(p).id == p.id
    requires Unique(order)
    ensures var st := SweepOver(pets, step, order);
      && (forall s :: s in st.updated ==> s.id in AliveIn(pets, order) && s.id in pets && s == Summarize(st.pets[s.id]))
      && DistinctIds(st.updated)
  {
    if order != [] {
      var init := order[..|order| - 1];
      var k := order[|order| - 1];
      UniquePrefix(order);
      SweepOverUpdated(pets, step, init);
      SweepOverUntouched(pets, step, init, k);
      AliveInMembers(pets, init);
      var st := SweepOver(pets, step, init);
      if pets[k].alive {
        AppendKeepsDistinct(st.updated, AliveIn(pets, init), Summarize(step(pets[k])));
      }
    }
  }

  /** The batch is as long as the number of visited alive pets. */
  lemma {:induction false} SweepOverCount(pets: map<string, Pet>, step: Pet -> Pet, order: seq<string>)
    requires forall k :: k in order ==> k in pets
    requires Unique(order)
    ensures |SweepOver(pets, step, order).updated| == |AliveIn(pets, order)|
  {
    if order != [] {
      var init := order[..|order| - 1];
      var k := order[|order| - 1];
      UniquePrefix(order);
      SweepOverCount(pets, step, init);
      SweepOverUntouched(pets, step, init, k);
      AliveInMembers(pets, init);
    }
  }

  /** The death flag is set exactly when a visited pet went from alive to dead. */
  lemma {:induction false} SweepOverDied(pets: map<string, Pet>, step: Pet -> Pet, order: seq<string>)
    requires forall k :: k in order ==> k in pets
    requires Unique(order)
    ensures var st := SweepOver(pets, step, order);
      st.died <==> exists k :: k in order && pets[k].alive && !st.pets[k].alive
  {
    if order != [] {
      var init := order[..|order| - 1];
      var k := order[|order| - 1];
      UniquePrefix(order);
      SweepOverDied(pets, step, init);
      SweepOverPets(pets, step, init);
      SweepOverPets(pets, step, order);
      assert forall j :: j in order <==> j in init || j == k;
    }
  }

  /** The decay rule as a function value agrees with DecayEntry and keeps the pet's id. */
  lemma DecayStepApply(users: map<string, User>, now: real)
    ensures forall p :: DecayStep(users, now)(p) == DecayEntry(p, users, now)
    ensures forall p :: DecayStep(users, now)(p).id == p.id
  {
  }

  /** A loop that has visited every key once with the decay rule has decayed the whole map. */
  lemma SweepCompletePets(pets: map<string, Pet>, users: map<string, User>, now: real, order: seq<string>)
    requires forall k :: k in order <==> k in pets
    requires forall k :: k in pets ==> WellFormed(k, pets[k])
    requires Unique(order)
    ensures SweepOver(pets, DecayStep(users, now), order).pets == DecayAll(pets, users, now)
  {
    DecayStepApply(users, now);
    SweepOverPets(pets, DecayStep(users, now), order);
  }

  /** ... and has listed every pet that was alive, once, and flagged a death exactly when one happened. */
  lemma SweepComplete(pets: map<string, Pet>, users: map<string, User>, now: real, order: seq<string>)
    requires forall k :: k in order <==> k in pets
    requires forall k :: k in pets ==> WellFormed(k, pets[k])
    requires Unique(order)
    ensures var st := SweepOver(pets, DecayStep(users, now), order);
      && st.pets == DecayAll(pets, users, now)
      && Batch(pets, st.pets, st.updated)
      && st.died == Died(pets, st.pets)
      && forall k :: k in st.pets ==> WellFormed(k, st.pets[k])
  {
    var step := DecayStep(users, now);
    DecayStepApply(users, now);
    SweepCompletePets(pets, users, now, order);
    DecayAllRule(pets, users, now);
    SweepOverUpdated(pets, step, order);
    SweepOverCount(pets, step, order);
    SweepOverDied(pets, step, order);
    AliveInMembers(pets, order);
    assert AliveIn(pets, order) == AliveIds(pets);
  }

  /** The body of the sweep's loop for key `k`. */
  method Visit(next: map<string, Pet>, updated: seq<Summary>, deathOccurred: bool, k: string,
               users: map<string, User>, now: real)
    returns (next': map<string, Pet>, updated': seq<Summary>, deathOccurred': bool)
    requires k in next
    ensures SweepState(next', updated', deathOccurred') ==
      SweepStep(SweepState(next, updated, deathOccurred), k, DecayStep(users, now))
  {
    next', updated', deathOccurred' := next, updated, deathOccurred;
    var p := next[k];
    if p.alive {
      var d := ClampDifficulty(OwnerDifficulty(users, p.owner));
      p := Decayed(p, d, now);
      if !p.alive {
        deathOccurred' := true;
      }
      next' := next'[k := p];
      updated' := updated' + [Summarize(p)];
    }
  }

  /**
   * The loop over the store's entries inside one sweep: decays every alive
   * pet, lists each processed pet once and notes whether one of them died.
   */
  method Sweep(pets: map<string, Pet>, users: map<string, User>, now: real)
    returns (next: map<string, Pet>, updated: seq<Summary>, deathOccurred: bool)
    requires forall k :: k in pets ==> WellFormed(k, pets[k])
    ensures next == DecayAll(pets, users, now)
    ensures Batch(pets, next, updated)
    ensures forall k :: k in next ==> WellFormed(k, next[k])
    ensures deathOccurred == Died(pets, next)
  {
    next := pets;
    updated := [];
    deathOccurred := false;
    var todo := pets.Keys;
    ghost var order: seq<string> := [];
    while todo != {}
      invariant todo <= pets.Keys
      invariant forall k :: k in order <==> k in pets && k !in todo
      invariant Unique(order)
      invariant SweepState(next, updated, deathOccurred) == SweepOver(pets, DecayStep(users, now), order)
      decreases |todo|
    {
      var k :| k in todo;
      next, updated, deathOccurred := Visit(next, updated, deathOccurred, k, users, now);
      SweepOverAppend(pets, DecayStep(users, now), order, k);
      UniqueAppend(order, k);
      order := order + [k];
      todo := todo - {k};
    }
    SweepComplete(pets, users, now, order);
  }

  /**
   * The batch a sweep broadcasts: every pet that was alive before the sweep,
   * each exactly once, with its stats after the sweep.
   */
  ghost predicate Batch(before: map<string, Pet>, after: map<string, Pet>, updated: seq<Summary>) {
    && |updated| == |AliveIds(before)|
    && (forall s :: s in updated ==> s.id in AliveIds(before) && s.id in after && s == Summarize(after[s.id]))
    && DistinctIds(updated)
  }

  /** No pet is listed twice in a batch. */
  ghost predicate DistinctIds(u: seq<Summary>) {
    forall i, j :: 0 <= i < j < |u| ==> u[i].id != u[j].id
  }

  lemma AppendKeepsDistinct(u: seq<Summary>, ids: set<string>, s: Summary)
    requires DistinctIds(u) && forall x :: x in u ==> x.id in ids
    requires s.id !in ids
    ensures DistinctIds(u + [s])
  {
    forall i, j | 0 <= i < j < |u + [s]|
      ensures (u + [s])[i].id != (u + [s])[j].id
    {
      assert (u + [s])[i] == u[i] by { assert i < |u|; }
      if j == |u| {
        assert u[i] in u;
      }
    }
  }

  /**
   * flush_save only writes a dirty store, so the flush after a creation on a
   * clean store writes nothing: the new pet reaches disk only with a later save.
   */
  lemma CreateOnCleanStoreWritesNothing(s: Saver, log: seq<Snapshot>, snap: Snapshot)
    requires !s.dirty
    ensures Persisted(s, log, snap, true).1 == log
  {
  }
}
