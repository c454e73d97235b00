/**
 * The older single-owner TamagotchiStorage (main.py): pets without owners or
 * positions, decay measured in whole hours on every read, and no skipping of
 * dead pets. Each save_data call (a dump of the whole dict to
 * tamagotchis.json) is counted in `writes`. Clock readings and uuids are
 * parameters; one reading serves a whole call.
 */
module Legacy {
  import opened Common
  import Pets

  datatype LegacyPet = LegacyPet(
    id: string, name: string,
    happiness: int, hunger: int, energy: int, health: int,
    age: int,
    lastFed: real, lastPlayed: real, lastSlept: real, createdAt: real,
    alive: bool, status: Pets.Status)

  const SECONDS_PER_HOUR: real := 3600.0

  /** `(now - since).total_seconds() / 3600`. */
  function Hours(now: real, since: real): real {
    (now - since) / SECONDS_PER_HOUR
  }

  ghost predicate InRange(p: LegacyPet) {
    0 <= p.happiness <= 100 && 0 <= p.hunger <= 100 && 0 <= p.energy <= 100 && 0 <= p.health <= 100
  }

  /** The record create_tamagotchi stores. */
  function Hatched(id: string, name: string, now: real): (p: LegacyPet)
    ensures p.id == id && p.name == name && InRange(p) && p.alive && p.status == Pets.Happy
    ensures p.happiness == 100 && p.hunger == 0 && p.energy == 100 && p.health == 100 && p.age == 0
    ensures p.lastFed == p.lastPlayed == p.lastSlept == p.createdAt == now
  {
    LegacyPet(id, name, 100, 0, 100, 100, 0, now, now, now, now, true, Pets.Happy)
  }

  /**
   * update_stats on one record: hunger, happiness and energy move by the whole
   * number of tenths, fifths and eighths of an hour since the matching
   * timestamp, health drops by one while a stat is critical, then the status
   * ladder and the age in whole hours. The timestamps stay as they are.
   */
  function Aged(p: LegacyPet, now: real): (q: LegacyPet)
    ensures q.id == p.id && q.name == p.name
    ensures q.lastFed == p.lastFed && q.lastPlayed == p.lastPlayed && q.lastSlept == p.lastSlept
    ensures q.createdAt == p.createdAt
    ensures q.health == if q.hunger > 80 || q.happiness < 20 || q.energy < 20 then Max(0, p.health - 1) else p.health
    ensures q.status == Pets.Ladder(q.health, q.hunger, q.energy, q.happiness)
    ensures q.alive == (p.alive && q.health > 0)
    ensures q.age == Trunc(Hours(now, p.createdAt))
  {
    var hunger := Min(100, p.hunger + Trunc(Hours(now, p.lastFed) * 10.0));
    var happiness := Max(0, p.happiness - Trunc(Hours(now, p.lastPlayed) * 5.0));
    var energy := Max(0, p.energy - Trunc(Hours(now, p.lastSlept) * 8.0));
    var health := if hunger > 80 || happiness < 20 || energy < 20 then Max(0, p.health - 1) else p.health;
    var alive := if health <= 0 then false else p.alive;
    p.(hunger := hunger, happiness := happiness, energy := energy, health := health, alive := alive,
       status := Pets.Ladder(health, hunger, energy, happiness), age := Trunc(Hours(now, p.createdAt)))
  }

  /**
   * When the clock has not gone back, aging keeps the stats in range, never
   * lowers hunger or raises the others, and moves each stat by exactly its
   * whole-unit count unless the bound is reached.
   */
  lemma AgedRule(p: LegacyPet, now: real)
    requires InRange(p)
    requires p.lastFed <= now && p.lastPlayed <= now && p.lastSlept <= now
    ensures var q := Aged(p, now);
      && InRange(q)
      && q.hunger >= p.hunger && q.happiness <= p.happiness && q.energy <= p.energy && q.health <= p.health
      && (p.hunger + Trunc(Hours(now, p.lastFed) * 10.0) <= 100 ==>
            q.hunger == p.hunger + Trunc(Hours(now, p.lastFed) * 10.0))
      && (p.happiness - Trunc(Hours(now, p.lastPlayed) * 5.0) >= 0 ==>
            q.happiness == p.happiness - Trunc(Hours(now, p.lastPlayed) * 5.0))
      && (p.energy - Trunc(Hours(now, p.lastSlept) * 8.0) >= 0 ==>
            q.energy == p.energy - Trunc(Hours(now, p.lastSlept) * 8.0))
  {
    assert Hours(now, p.lastFed) >= 0.0 && Hours(now, p.lastPlayed) >= 0.0 && Hours(now, p.lastSlept) >= 0.0;
  }

  /** Nothing skips a dead pet: its hunger still rises, and it stays dead. */
  lemma DeadPetStillAges()
    ensures var p := LegacyPet("t", "Tama", 50, 50, 50, 0, 3, 0.0, 0.0, 0.0, 0.0, false, Pets.Dead);
      var q := Aged(p, 3600.0);
      q.hunger == 60 && q.happiness == 45 && q.energy == 42 && !q.alive && q.status == Pets.Dead
  {
    var p := LegacyPet("t", "Tama", 50, 50, 50, 0, 3, 0.0, 0.0, 0.0, 0.0, false, Pets.Dead);
    assert Hours(3600.0, 0.0) == 1.0;
    assert Trunc(10.0) == 10 && Trunc(5.0) == 5 && Trunc(8.0) == 8;
  }

  /**
   * Because the timestamps are not reset, two reads at the same instant apply
   * the hours since the last feed twice.
   */
  lemma RepeatedReadsCompound()
    ensures var p := Hatched("t", "Tama", 0.0);
      Aged(p, 3600.0).hunger == 10 && Aged(Aged(p, 3600.0), 3600.0).hunger == 20
  {
    assert Hours(3600.0, 0.0) == 1.0;
    assert Trunc(10.0) == 10 && Trunc(5.0) == 5 && Trunc(8.0) == 8;
  }

  /** A pet read at its own creation instant is unchanged. */
  lemma HatchedIsSettled(id: string, name: string, now: real)
    ensures Aged(Hatched(id, name, now), now) == Hatched(id, name, now)
  {
    assert Hours(now, now) == 0.0;
  }

  /** feed: hunger −30 (floored), happiness +10 (capped), fed now. */
  function Fed(p: LegacyPet, now: real): LegacyPet {
    p.(hunger := Max(0, p.hunger - 30), happiness := Min(100, p.happiness + 10), lastFed := now)
  }

  /** play: happiness +20 (capped), energy −10 (floored), played now. */
  function Played(p: LegacyPet, now: real): LegacyPet {
    p.(happiness := Min(100, p.happiness + 20), energy := Max(0, p.energy - 10), lastPlayed := now)
  }

  /** sleep: energy +40 (capped), slept now. */
  function Slept(p: LegacyPet, now: real): LegacyPet {
    p.(energy := Min(100, p.energy + 40), lastSlept := now)
  }

  /**
   * The update that follows each action sees zero hours since that action, so
   * the acted-on stat keeps exactly the action's value.
   */
  lemma ActionsSurviveTheirUpdate(p: LegacyPet, now: real)
    requires InRange(p)
    ensures Aged(Fed(p, now), now).hunger == Max(0, p.hunger - 30)
    ensures Aged(Played(p, now), now).happiness == Min(100, p.happiness + 20)
    ensures Aged(Slept(p, now), now).energy == Min(100, p.energy + 40)
  {
    assert Hours(now, now) == 0.0;
    assert Trunc(0.0 * 10.0) == 0 && Trunc(0.0 * 5.0) == 0 && Trunc(0.0 * 8.0) == 0;
  }

  class LegacyStorage {
    /** self.tamagotchis, keyed by id. */
    var pets: map<string, LegacyPet>
    /** Its keys in insertion order. */
    var ids: seq<string>
    /** How many times save_data has dumped the dict. */
    var writes: nat

    ghost predicate Valid()
      reads this
    {
      && Unique(ids)
      && (forall k :: k in ids <==> k in pets)
    }

    /** The store as load_data leaves it: `loaded` in file order `order`. */
    constructor (loaded: map<string, LegacyPet>, order: seq<string>)
      requires Unique(order) && forall k :: k in order <==> k in loaded
      ensures Valid() && pets == loaded && ids == order && writes == 0
    {
      pets, ids, writes := loaded, order, 0;
    }

    method CreateTamagotchi(name: string, id: string, now: real) returns (p: LegacyPet)
      requires Valid() && id !in pets
      modifies this
      ensures Valid()
      ensures p == Hatched(id, name, now)
      ensures pets == old(pets)[id := p] && ids == old(ids) + [id] && writes == old(writes) + 1
    {
      UniqueAppend(ids, id);
      p := Hatched(id, name, now);
      pets := pets[id := p];
      ids := ids + [id];
      writes := writes + 1;
    }

    /** update_stats: ages one record in place and saves; an unknown id changes nothing. */
    method UpdateStats(id: string, now: real)
      modifies this`pets, this`writes
      ensures id in old(pets) ==> pets == old(pets)[id := Aged(old(pets)[id], now)] && writes == old(writes) + 1
      ensures id !in old(pets) ==> pets == old(pets) && writes == old(writes)
    {
      if id !in pets {
        return;
      }
      var t := pets[id];
      var hunger := Min(100, t.hunger + Trunc(Hours(now, t.lastFed) * 10.0));
      var happiness := Max(0, t.happiness - Trunc(Hours(now, t.lastPlayed) * 5.0));
      var energy := Max(0, t.energy - Trunc(Hours(now, t.lastSlept) * 8.0));
      t := t.(hunger := hunger, happiness := happiness, energy := energy);
      if t.hunger > 80 || t.happiness < 20 || t.energy < 20 {
        t := t.(health := Max(0, t.health - 1));
      }
      if t.health <= 0 {
        t := t.(alive := false, status := Pets.Dead);
      } else {
        t := t.(status := Pets.Ladder(t.health, t.hunger, t.energy, t.happiness));
      }
      t := t.(age := Trunc(Hours(now, t.createdAt)));
      pets := pets[id := t];
      writes := writes + 1;
    }

    /** get_tamagotchi: a read that ages the record and saves. */
    method GetTamagotchi(id: string, now: real) returns (r: Option<LegacyPet>)
      modifies this`pets, this`writes
      ensures id in old(pets) ==>
        r == Some(Aged(old(pets)[id], now)) && pets == old(pets)[id := r.value] && writes == old(writes) + 1
      ensures id !in old(pets) ==> r == None && pets == old(pets) && writes == old(writes)
    {
      if id !in pets {
        return None;
      }
      UpdateStats(id, now);
      r := Some(pets[id]);
    }

    /** get_all_tamagotchis: ages every record in insertion order, saving once per record. */
    method GetAllTamagotchis(now: real) returns (r: seq<LegacyPet>)
      requires Valid()
      modifies this`pets, this`writes
      ensures Valid()
      ensures |r| == |ids| && forall i :: 0 <= i < |ids| ==> r[i] == Aged(old(pets)[ids[i]], now)
      ensures pets.Keys == old(pets).Keys && forall k :: k in pets ==> pets[k] == Aged(old(pets)[k], now)
      ensures writes == old(writes) + |ids|
    {
      r := [];
      var i := 0;
      while i < |ids|
        invariant 0 <= i <= |ids| && |r| == i
        invariant AgedUpTo(old(pets), i, now)
        invariant forall j :: 0 <= j < i ==> r[j] == Aged(old(pets)[ids[j]], now)
        invariant writes == old(writes) + i
      {
        var t := AgeOne(i, now, old(pets));
        r := r + [t];
        i := i + 1;
      }
      assert ids[..i] == ids;
    }

    /** The first `i` records in insertion order are aged, the rest untouched. */
    ghost predicate AgedUpTo(p0: map<string, LegacyPet>, i: nat, now: real)
      requires i <= |ids|
      reads this`pets, this`ids
    {
      && pets.Keys == p0.Keys
      && forall k :: k in pets ==> pets[k] == if k in ids[..i] then Aged(p0[k], now) else p0[k]
    }

    /** One pass of get_all_tamagotchis' loop: ages the `i`-th record. */
    method AgeOne(i: nat, now: real, ghost p0: map<string, LegacyPet>) returns (t: LegacyPet)
      requires Valid() && i < |ids| && AgedUpTo(p0, i, now)
      modifies this`pets, this`writes
      ensures AgedUpTo(p0, i + 1, now) && t == Aged(p0[ids[i]], now) && writes == old(writes) + 1
    {
      var k := ids[i];
      assert ids[..i + 1] == ids[..i] + [k];
      assert k !in ids[..i];
      UpdateStats(k, now);
      t := pets[k];
    }

    /** feed_tamagotchi: unknown id gives None; a dead pet comes back untouched and unsaved. */
    method FeedTamagotchi(id: string, now: real) returns (r: Option<LegacyPet>)
      modifies this`pets, this`writes
      ensures id !in old(pets) ==> r == None && pets == old(pets) && writes == old(writes)
      ensures id in old(pets) && !old(pets)[id].alive ==> r == Some(old(pets)[id]) && pets == old(pets) && writes == old(writes)
      ensures id in old(pets) && old(pets)[id].alive ==>
        r == Some(Aged(Fed(old(pets)[id], now), now)) && pets == old(pets)[id := r.value] && writes == old(writes) + 2
    {
      if id !in pets {
        return None;
      }
      var t := pets[id];
      if !t.alive {
        return Some(t);
      }
      t := t.(hunger := Max(0, t.hunger - 30));
      t := t.(happiness := Min(100, t.happiness + 10));
      t := t.(lastFed := now);
      pets := pets[id := t];
      writes := writes + 1;
      UpdateStats(id, now);
      r := Some(pets[id]);
    }

    method PlayWithTamagotchi(id: string, now: real) returns (r: Option<LegacyPet>)
      modifies this`pets, this`writes
      ensures id !in old(pets) ==> r == None && pets == old(pets) && writes == old(writes)
      ensures id in old(pets) && !old(pets)[id].alive ==> r == Some(old(pets)[id]) && pets == old(pets) && writes == old(writes)
      ensures id in old(pets) && old(pets)[id].alive ==>
        r == Some(Aged(Played(old(pets)[id], now), now)) && pets == old(pets)[id := r.value] && writes == old(writes) + 2
    {
      if id !in pets {
        return None;
      }
      var t := pets[id];
      if !t.alive {
        return Some(t);
      }
      t := t.(happiness := Min(100, t.happiness + 20));
      t := t.(energy := Max(0, t.energy - 10));
      t := t.(lastPlayed := now);
      pets := pets[id := t];
      writes := writes + 1;
      UpdateStats(id, now);
      r := Some(pets[id]);
    }

    method SleepTamagotchi(id: string, now: real) returns (r: Option<LegacyPet>)
      modifies this`pets, this`writes
      ensures id !in old(pets) ==> r == None && pets == old(pets) && writes == old(writes)
      ensures id in old(pets) && !old(pets)[id].alive ==> r == Some(old(pets)[id]) && pets == old(pets) && writes == old(writes)
      ensures id in old(pets) && old(pets)[id].alive ==>
        r == Some(Aged(Slept(old(pets)[id], now), now)) && pets == old(pets)[id := r.value] && writes == old(writes) + 2
    {
      if id !in pets {
        return None;
      }
      var t := pets[id];
      if !t.alive {
        return Some(t);
      }
      t := t.(energy := Min(100, t.energy + 40));
      t := t.(lastSlept := now);
      pets := pets[id := t];
      writes := writes + 1;
      UpdateStats(id, now);
      r := Some(pets[id]);
    }
  }
}
