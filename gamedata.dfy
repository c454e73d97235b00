/**
 * The client's realtime state (frontend/src/composables/useGameData.js): the
 * pet list, the other users' cursors, the knock-out toasts and the ids queued
 * to be hidden, updated by the websocket message handler and by the GraphQL
 * subscription watcher. Records are JavaScript objects (`Js.Val`).
 *
 * Each message case builds the new list with a pure function below; the
 * handlers then reassign the fields, except that a created pet from the
 * subscription is pushed onto the list in place.
 */
module GameData {
  import opened Js

  function IdOf(v: Val): Val {
    Prop(v, "id")
  }

  /** `list.some((x) => x.id === id)`. */
  predicate HasId(list: seq<Val>, id: Val) {
    exists i :: 0 <= i < |list| && IdOf(list[i]) == id
  }

  ghost predicate UniqueIds(list: seq<Val>) {
    forall i, j :: 0 <= i < j < |list| ==> IdOf(list[i]) != IdOf(list[j])
  }

  /** A knock-out toast: `your pet ${name} is knocked out!`, level warning. */
  datatype Toast = KnockedOut(name: Val)

  // ---------------------------------------------------------------------------
  // tamagotchi_created

  /** Websocket: append the pet unless one with its id is already listed. */
  function OnCreated(pets: seq<Val>, t: Val): seq<Val> {
    if Truthy(t) && !HasId(pets, IdOf(t)) then pets + [t] else pets
  }

  /** A created message never introduces a second pet with the same id, and repeating it changes nothing. */
  lemma CreatedRule(pets: seq<Val>, t: Val)
    ensures UniqueIds(pets) ==> UniqueIds(OnCreated(pets, t))
    ensures OnCreated(OnCreated(pets, t), t) == OnCreated(pets, t)
    ensures Truthy(t) ==> HasId(OnCreated(pets, t), IdOf(t))
  {
    var r := OnCreated(pets, t);
    if Truthy(t) {
      if HasId(pets, IdOf(t)) {
        assert r == pets;
      } else {
        assert r[|pets|] == t;
        assert HasId(r, IdOf(t));
      }
    }
  }

  /** The record the subscription pushes: a copy whose position is copied or undefined. */
  function Normalized(nt: Val): (r: Val)
    ensures IdOf(r) == IdOf(nt)
  {
    var pos := Prop(nt, "position");
    Obj(Fields(nt)["position" := if Truthy(pos) then Copy(pos) else Undefined])
  }

  /** Subscription: the same rule, pushing a normalized copy. */
  function OnSubscriptionCreated(pets: seq<Val>, nt: Val): seq<Val> {
    if Truthy(nt) && !HasId(pets, IdOf(nt)) then pets + [Normalized(nt)] else pets
  }

  lemma SubscriptionCreatedRule(pets: seq<Val>, nt: Val)
    ensures UniqueIds(pets) ==> UniqueIds(OnSubscriptionCreated(pets, nt))
    ensures OnSubscriptionCreated(OnSubscriptionCreated(pets, nt), nt) == OnSubscriptionCreated(pets, nt)
  {
    var r := OnSubscriptionCreated(pets, nt);
    if Truthy(nt) && !HasId(pets, IdOf(nt)) {
      assert IdOf(r[|pets|]) == IdOf(nt);
    }
  }

  // ---------------------------------------------------------------------------
  // tamagotchi_removed

  /** Drops every pet with the message's id (a falsy id changes nothing). */
  function OnRemoved(pets: seq<Val>, id: Val): seq<Val> {
    if Truthy(id) then Filter(pets, t => IdOf(t) != id) else pets
  }

  /** Removal keeps exactly the pets with other ids, in their order. */
  lemma RemovedRule(pets: seq<Val>, id: Val)
    requires Truthy(id)
    ensures forall t :: t in OnRemoved(pets, id) <==> t in pets && IdOf(t) != id
    ensures IsSubsequence(OnRemoved(pets, id), pets)
    ensures !HasId(OnRemoved(pets, id), id)
  {
    var r := OnRemoved(pets, id);
    FilterRule(pets, t => IdOf(t) != id);
    assert forall i :: 0 <= i < |r| ==> r[i] in r;
  }

  /** A repeated removal message changes nothing. */
  lemma RemovedTwice(pets: seq<Val>, id: Val)
    ensures OnRemoved(OnRemoved(pets, id), id) == OnRemoved(pets, id)
  {
    if Truthy(id) {
      var keep := t => IdOf(t) != id;
      FilterRule(pets, keep);
      FilterAll(Filter(pets, keep), keep);
    }
  }

  // ---------------------------------------------------------------------------
  // position_update

  /** `{...t, position: {...(t.position || {}), x, y, direction}}`. */
  function Moved(t: Val, p: Val): (r: Val)
    ensures r.Obj? && r.fields.Keys == Fields(t).Keys + {"position"}
    ensures forall k :: k != "position" ==> Prop(r, k) == Prop(t, k)
  {
    var prev := Or(Prop(t, "position"), Obj(map[]));
    Obj(Fields(t)["position" := Obj(Fields(prev)["x" := Prop(p, "x")]["y" := Prop(p, "y")]["direction" := Prop(p, "direction")])])
  }

  function MoveOne(t: Val, p: Val, aliveOnly: bool): Val {
    if !Truthy(p) then t
    else if aliveOnly && !Truthy(Prop(t, "isAlive")) then t
    else Moved(t, p)
  }

  /**
   * Moves each listed pet to its reported x, y and heading; the websocket
   * handler (`aliveOnly`) leaves knocked-out pets where they are. A value
   * that is not an array changes nothing.
   */
  function OnPositions(pets: seq<Val>, positions: Val, aliveOnly: bool): (r: seq<Val>)
    ensures |r| == |pets|
  {
    if !positions.Arr? then pets
    else
      var byId := MapFrom(positions.items, "id");
      seq(|pets|, i requires 0 <= i < |pets| => MoveOne(pets[i], MapGet(byId, IdOf(pets[i])), aliveOnly))
  }

  /** A position update leaves unlisted pets, and from the websocket knocked-out ones, unchanged. */
  lemma PositionsKeep(pets: seq<Val>, positions: Val, aliveOnly: bool, i: int)
    requires 0 <= i < |pets|
    requires !positions.Arr? || !Truthy(LastWith(positions.items, "id", IdOf(pets[i]))) ||
             (aliveOnly && !Truthy(Prop(pets[i], "isAlive")))
    ensures OnPositions(pets, positions, aliveOnly)[i] == pets[i]
  {
    if positions.Arr? {
      MapFromGet(positions.items, "id", IdOf(pets[i]));
    }
  }

  /**
   * A listed pet that may move changes only its position: x, y and direction
   * come from the last report for its id, its other keys are kept, and so are
   * the other keys of its old position.
   */
  lemma PositionsMove(pets: seq<Val>, positions: Val, aliveOnly: bool, i: int)
    requires positions.Arr? && 0 <= i < |pets|
    requires Truthy(LastWith(positions.items, "id", IdOf(pets[i])))
    requires !aliveOnly || Truthy(Prop(pets[i], "isAlive"))
    ensures var p := LastWith(positions.items, "id", IdOf(pets[i]));
      var r := OnPositions(pets, positions, aliveOnly)[i];
      && (forall k :: k != "position" ==> Prop(r, k) == Prop(pets[i], k))
      && Prop(Prop(r, "position"), "x") == Prop(p, "x")
      && Prop(Prop(r, "position"), "y") == Prop(p, "y")
      && Prop(Prop(r, "position"), "direction") == Prop(p, "direction")
      && (Prop(pets[i], "position").Obj? ==>
            forall k :: k != "x" && k != "y" && k != "direction" ==>
              Prop(Prop(r, "position"), k) == Prop(Prop(pets[i], "position"), k))
  {
    var p := LastWith(positions.items, "id", IdOf(pets[i]));
    MapFromGet(positions.items, "id", IdOf(pets[i]));
    assert OnPositions(pets, positions, aliveOnly)[i] == Moved(pets[i], p);
    MovedRule(pets[i], p);
  }

  lemma MovedRule(t: Val, p: Val)
    ensures var pos := Prop(Moved(t, p), "position");
      && Prop(pos, "x") == Prop(p, "x") && Prop(pos, "y") == Prop(p, "y")
      && Prop(pos, "direction") == Prop(p, "direction")
      && (Prop(t, "position").Obj? ==>
            forall k :: k != "x" && k != "y" && k != "direction" ==> Prop(pos, k) == Prop(Prop(t, "position"), k))
  {
  }

  // ---------------------------------------------------------------------------
  // stats_update

  /** `u.position ? {...u.position} : t.position ? {...t.position} : undefined`. */
  function MergedPosition(t: Val, u: Val): Val {
    if Truthy(Prop(u, "position")) then Copy(Prop(u, "position"))
    else if Truthy(Prop(t, "position")) then Copy(Prop(t, "position"))
    else Undefined
  }

  /** `{...t, ...u, isAlive: alive, position: ...}`. */
  function Merged(t: Val, u: Val, alive: Val): (r: Val)
    ensures Prop(r, "isAlive") == alive && Prop(r, "position") == MergedPosition(t, u)
    ensures forall k :: k != "isAlive" && k != "position" ==> Prop(r, k) == Prop(Spread(t, u), k)
  {
    Obj((Fields(t) + Fields(u))["isAlive" := alive]["position" := MergedPosition(t, u)])
  }

  /** `u.isAlive ?? u.is_alive`: the server sends either spelling. */
  function ReportedAlive(u: Val): Val {
    Coalesce(Prop(u, "isAlive"), Prop(u, "is_alive"))
  }

  function BatchOne(t: Val, u: Val): Val {
    if !Truthy(u) then t else Merged(t, u, Coalesce(ReportedAlive(u), Prop(t, "isAlive")))
  }

  /** The batch form: each listed pet merged with its last entry; liveness falls back to the old value. */
  function ApplyBatch(pets: seq<Val>, byId: seq<Entry>): (r: seq<Val>)
    ensures |r| == |pets|
  {
    seq(|pets|, i requires 0 <= i < |pets| => BatchOne(pets[i], MapGet(byId, IdOf(pets[i]))))
  }

  /** The single form: the pet with the same id merged, with no liveness fallback. */
  function ApplySingle(pets: seq<Val>, u: Val): (r: seq<Val>)
    ensures |r| == |pets|
  {
    seq(|pets|, i requires 0 <= i < |pets| => if IdOf(pets[i]) == IdOf(u) then Merged(pets[i], u, ReportedAlive(u)) else pets[i])
  }

  /** `Array.isArray(message.tamagotchis) ? message.tamagotchis : []`. */
  function BatchItems(message: Val): seq<Val> {
    var items := Prop(message, "tamagotchis");
    if items.Arr? then items.items else []
  }

  /** The pet list after a stats_update message: the batch first, then the single record. */
  function OnStats(pets: seq<Val>, message: Val): (r: seq<Val>)
    ensures |r| == |pets|
  {
    var items := BatchItems(message);
    var single := Or(Prop(message, "tamagotchi"), Null);
    var afterBatch := if |items| > 0 then ApplyBatch(pets, MapFrom(items, "id")) else pets;
    if Truthy(single) then ApplySingle(afterBatch, single) else afterBatch
  }

  /**
   * A batch leaves every pet without an entry unchanged. A listed pet takes
   * the entry's keys, its position is the entry's, else its own; its liveness
   * is the entry's (`isAlive`, else `is_alive`) and, when the entry carries
   * neither, the old one.
   */
  lemma BatchRule(pets: seq<Val>, items: seq<Val>, i: int)
    requires 0 <= i < |pets|
    ensures var u := LastWith(items, "id", IdOf(pets[i]));
      var r := ApplyBatch(pets, MapFrom(items, "id"))[i];
      && (!Truthy(u) ==> r == pets[i])
      && (Truthy(u) ==>
            && (forall k :: k != "isAlive" && k != "position" ==> Prop(r, k) == Prop(Spread(pets[i], u), k))
            && Prop(r, "position") == MergedPosition(pets[i], u)
            && (!Nullish(Prop(u, "isAlive")) ==> Prop(r, "isAlive") == Prop(u, "isAlive"))
            && (Nullish(Prop(u, "isAlive")) && !Nullish(Prop(u, "is_alive")) ==> Prop(r, "isAlive") == Prop(u, "is_alive"))
            && (Nullish(Prop(u, "isAlive")) && Nullish(Prop(u, "is_alive")) ==> Prop(r, "isAlive") == Prop(pets[i], "isAlive")))
  {
    MapFromGet(items, "id", IdOf(pets[i]));
  }

  /** The single form has no fallback: a record carrying neither spelling leaves the pet's liveness nullish. */
  lemma SingleDropsUnreportedLiveness(pets: seq<Val>, u: Val, i: int)
    requires 0 <= i < |pets| && IdOf(pets[i]) == IdOf(u)
    requires Nullish(Prop(u, "isAlive")) && Nullish(Prop(u, "is_alive"))
    ensures Nullish(Prop(ApplySingle(pets, u)[i], "isAlive"))
    ensures !Truthy(Prop(ApplySingle(pets, u)[i], "isAlive"))
  {
  }

  // ---------------------------------------------------------------------------
  // Knock-out notices

  /** An entry of the batch whose pet was alive before and is now reported exactly `false`. */
  predicate KnockedOutBy(e: Entry, before: seq<Entry>) {
    var prev := MapGet(before, e.key);
    Truthy(prev) && Truthy(Prop(prev, "isAlive")) && ReportedAlive(e.value) == Bool(false)
  }

  /** The notice one entry gives: the pet's previous record, or none. */
  function Notice(e: Entry, before: seq<Entry>): seq<Val> {
    if KnockedOutBy(e, before) then [MapGet(before, e.key)] else []
  }

  /** The previous records of the pets knocked out by the batch, in the batch map's order. */
  function KnockOuts(entries: seq<Entry>, before: seq<Entry>): seq<Val>
    decreases |entries|
  {
    if entries == [] then []
    else
      var e := entries[|entries| - 1];
      KnockOuts(entries[..|entries| - 1], before) + Notice(e, before)
  }

  /** Each notice is about a pet that was alive and that an entry knocks out. */
  lemma {:induction false} KnockOutsSound(entries: seq<Entry>, before: seq<Entry>)
    ensures forall p :: p in KnockOuts(entries, before) ==>
      Truthy(Prop(p, "isAlive")) && exists e :: e in entries && KnockedOutBy(e, before) && MapGet(before, e.key) == p
    ensures |KnockOuts(entries, before)| <= |entries|
    decreases |entries|
  {
    if entries != [] {
      var init := entries[..|entries| - 1];
      KnockOutsSound(init, before);
      assert forall e :: e in init ==> e in entries;
      assert entries[|entries| - 1] in entries;
    }
  }

  /** Every entry that knocks a pet out gives a notice. */
  lemma {:induction false} KnockOutsComplete(entries: seq<Entry>, before: seq<Entry>)
    ensures forall e :: e in entries && KnockedOutBy(e, before) ==> MapGet(before, e.key) in KnockOuts(entries, before)
    decreases |entries|
  {
    if entries != [] {
      var init := entries[..|entries| - 1];
      KnockOutsComplete(init, before);
      assert entries == init + [entries[|entries| - 1]];
    }
  }

  lemma KnockOutsStep(entries: seq<Entry>, before: seq<Entry>, i: int)
    requires 0 <= i < |entries|
    ensures KnockOuts(entries[..i + 1], before) == KnockOuts(entries[..i], before) + Notice(entries[i], before)
  {
    assert entries[..i + 1][..i] == entries[..i];
  }

  /** The notices of the first `i` entries. */
  ghost function NoticesUpTo(entries: seq<Entry>, before: seq<Entry>, i: int): seq<Val>
    requires 0 <= i <= |entries|
  {
    KnockOuts(entries[..i], before)
  }

  lemma NoticesUpToAll(entries: seq<Entry>, before: seq<Entry>)
    ensures NoticesUpTo(entries, before, |entries|) == KnockOuts(entries, before)
  {
    assert entries[..|entries|] == entries;
  }

  /** The loop's step: the toasts and hides of one more entry are appended. */
  lemma NoticesStep(entries: seq<Entry>, before: seq<Entry>, i: int, me: Val, toasting: bool)
    requires 0 <= i < |entries|
    ensures var done, extra := NoticesUpTo(entries, before, i), Notice(entries[i], before);
      && Raised(toasting, NoticesUpTo(entries, before, i + 1)) == Raised(toasting, done) + Raised(toasting, extra)
      && OwnHides(NoticesUpTo(entries, before, i + 1), me) == OwnHides(done, me) + OwnHides(extra, me)
  {
    KnockOutsStep(entries, before, i);
    ToastsAppend(KnockOuts(entries[..i], before), Notice(entries[i], before));
    OwnHidesAppend(KnockOuts(entries[..i], before), Notice(entries[i], before), me);
  }

  lemma Regroup<T>(a: seq<T>, b: seq<T>, c: seq<T>, ab: seq<T>, abc: seq<T>)
    requires ab == a + b && abc == ab + c
    ensures abc == a + (b + c)
  {
  }

  /** The toasts raised for some notices: none without a pushToast callback. */
  function Raised(toasting: bool, prevs: seq<Val>): seq<Toast> {
    if toasting then Toasts(prevs) else []
  }

  /** One toast per notice, naming the pet. */
  function Toasts(prevs: seq<Val>): seq<Toast> {
    seq(|prevs|, i requires 0 <= i < |prevs| => KnockedOut(Prop(prevs[i], "name")))
  }

  /** The ids of the noticed pets the current user owns, queued to be hidden. */
  function OwnHides(prevs: seq<Val>, me: Val): seq<Val>
    decreases |prevs|
  {
    if prevs == [] then []
    else
      var p := prevs[|prevs| - 1];
      OwnHides(prevs[..|prevs| - 1], me) + if Prop(p, "ownerId") == Prop(me, "id") then [IdOf(p)] else []
  }

  lemma ToastsAppend(xs: seq<Val>, ys: seq<Val>)
    ensures Toasts(xs + ys) == Toasts(xs) + Toasts(ys)
  {
    assert forall i :: 0 <= i < |xs + ys| ==> Toasts(xs + ys)[i] == (Toasts(xs) + Toasts(ys))[i];
  }

  /** Every queued hide is the id of a noticed pet the current user owns, and every such pet is queued. */
  lemma {:induction false} OwnHidesRule(prevs: seq<Val>, me: Val)
    ensures forall x :: x in OwnHides(prevs, me) ==>
      exists p :: p in prevs && IdOf(p) == x && Prop(p, "ownerId") == Prop(me, "id")
    ensures forall p :: p in prevs && Prop(p, "ownerId") == Prop(me, "id") ==> IdOf(p) in OwnHides(prevs, me)
    decreases |prevs|
  {
    if prevs != [] {
      var init := prevs[..|prevs| - 1];
      OwnHidesRule(init, me);
      assert prevs == init + [prevs[|prevs| - 1]];
    }
  }

  lemma {:induction false} OwnHidesAppend(xs: seq<Val>, ys: seq<Val>, me: Val)
    ensures OwnHides(xs + ys, me) == OwnHides(xs, me) + OwnHides(ys, me)
    decreases |ys|
  {
    if ys == [] {
      assert xs + ys == xs;
    } else {
      var init := ys[..|ys| - 1];
      assert (xs + ys)[..|xs + ys| - 1] == xs + init;
      assert (xs + ys)[|xs + ys| - 1] == ys[|ys| - 1];
      OwnHidesAppend(xs, init, me);
    }
  }

  // ---------------------------------------------------------------------------
  // mouse_position

  function Upsert(cursors: seq<Val>, data: Val, uid: Val): (r: seq<Val>) {
    var idx := FindIndex(cursors, m => Prop(m, "user_id") == uid);
    if idx != -1 then cursors[idx := data] else cursors + [data]
  }

  /** Another user's cursor replaces that user's entry or is appended; the current user's is ignored. */
  function OnMouse(cursors: seq<Val>, message: Val, me: Val): seq<Val> {
    var data := Prop(message, "data");
    var uid := Prop(data, "user_id");
    if Truthy(uid) && uid != Prop(me, "id") then Upsert(cursors, data, uid) else cursors
  }

  ghost predicate OnePerUser(cursors: seq<Val>) {
    forall i, j :: 0 <= i < j < |cursors| ==> Prop(cursors[i], "user_id") != Prop(cursors[j], "user_id")
  }

  /** The cursor list keeps at most one entry per user and ends up holding the reported cursor. */
  lemma MouseRule(cursors: seq<Val>, message: Val, me: Val)
    ensures OnePerUser(cursors) ==> OnePerUser(OnMouse(cursors, message, me))
    ensures var uid := Prop(Prop(message, "data"), "user_id");
      && (!Truthy(uid) || uid == Prop(me, "id") ==> OnMouse(cursors, message, me) == cursors)
      && (Truthy(uid) && uid != Prop(me, "id") ==>
            Prop(message, "data") in OnMouse(cursors, message, me) &&
            |cursors| <= |OnMouse(cursors, message, me)| <= |cursors| + 1)
  {
    var data := Prop(message, "data");
    var uid := Prop(data, "user_id");
    if Truthy(uid) && uid != Prop(me, "id") {
      var idx := FindIndex(cursors, m => Prop(m, "user_id") == uid);
      var r := Upsert(cursors, data, uid);
      if idx != -1 {
        assert r[idx] == data;
      } else {
        assert r[|cursors|] == data;
      }
    }
  }

  // ---------------------------------------------------------------------------
  // The handlers

  /** The message's `type`, as the `switch` compares it. */
  predicate IsType(message: Val, name: string) {
    Prop(message, "type") == Str(name)
  }

  /** The pet list after a websocket message. */
  function WsPets(pets: seq<Val>, message: Val): seq<Val> {
    if IsType(message, "tamagotchi_created") then OnCreated(pets, Prop(message, "tamagotchi"))
    else if IsType(message, "stats_update") then OnStats(pets, message)
    else if IsType(message, "position_update") then OnPositions(pets, Prop(message, "positions"), true)
    else if IsType(message, "tamagotchi_removed") then OnRemoved(pets, Prop(message, "id"))
    else pets
  }

  /** The knock-out notices of a websocket message: only a stats_update batch gives any. */
  function WsKnockOuts(pets: seq<Val>, message: Val): seq<Val> {
    if IsType(message, "stats_update") then KnockOuts(MapFrom(BatchItems(message), "id"), MapFrom(pets, "id"))
    else []
  }

  /** A message of a type the handler does not know changes nothing. */
  lemma UnknownMessageIgnored(pets: seq<Val>, message: Val)
    requires !IsType(message, "tamagotchi_created") && !IsType(message, "stats_update")
    requires !IsType(message, "position_update") && !IsType(message, "tamagotchi_removed")
    ensures WsPets(pets, message) == pets && WsKnockOuts(pets, message) == []
  {
  }

  /** The pet-list change a subscription stats_update makes: no liveness key is forced. */
  function OnSubscriptionStats(pets: seq<Val>, u: Val): (r: seq<Val>)
    ensures |r| == |pets|
  {
    seq(|pets|, i requires 0 <= i < |pets| =>
      if IdOf(pets[i]) == IdOf(u) then Obj((Fields(pets[i]) + Fields(u))["position" := MergedPosition(pets[i], u)]) else pets[i])
  }

  /**
   * A subscription stats record changes only the pets with its id. Those take
   * every key of the record over their own, with the record's position, else
   * their own; liveness is the record's when it carries `isAlive` and the
   * pet's otherwise, with no fallback to `is_alive`.
   */
  lemma SubscriptionStatsRule(pets: seq<Val>, u: Val, i: int)
    requires 0 <= i < |pets|
    ensures var r := OnSubscriptionStats(pets, u)[i];
      && (IdOf(pets[i]) != IdOf(u) ==> r == pets[i])
      && (IdOf(pets[i]) == IdOf(u) ==>
            && r.Obj?
            && (forall k :: k != "position" ==> Prop(r, k) == Prop(Spread(pets[i], u), k))
            && Prop(r, "position") == MergedPosition(pets[i], u)
            && Prop(r, "isAlive") == if "isAlive" in Fields(u) then Prop(u, "isAlive") else Prop(pets[i], "isAlive"))
  {
  }

  /**
   * The subscription's knock-out test is falsiness, not `=== false`: a record
   * that simply omits `isAlive` knocks out the alive pet it names.
   */
  predicate SubscriptionKnockOut(pets: seq<Val>, u: Val) {
    var prev := MapGet(MapFrom(pets, "id"), IdOf(u));
    Truthy(prev) && Truthy(Prop(prev, "isAlive")) && !Truthy(Prop(u, "isAlive"))
  }

  lemma SubscriptionOmissionKnocksOut(pets: seq<Val>, u: Val, i: int)
    requires 0 <= i < |pets| && IdOf(pets[i]) == IdOf(u)
    requires forall j :: i < j < |pets| ==> IdOf(pets[j]) != IdOf(u)
    requires pets[i].Obj? && Truthy(Prop(pets[i], "isAlive"))
    requires Nullish(Prop(u, "isAlive"))
    ensures SubscriptionKnockOut(pets, u)
  {
    MapFromGet(pets, "id", IdOf(u));
    LastWithIs(pets, "id", IdOf(u), i);
  }

  /** The last element with the key is the one at `i` when no later one has it. */
  lemma {:induction false} LastWithIs(xs: seq<Val>, field: string, k: Val, i: int)
    requires 0 <= i < |xs| && Prop(xs[i], field) == k
    requires forall j :: i < j < |xs| ==> Prop(xs[j], field) != k
    ensures LastWith(xs, field, k) == xs[i]
    decreases |xs|
  {
    if i < |xs| - 1 {
      var init := xs[..|xs| - 1];
      assert init[i] == xs[i];
      assert forall j :: i < j < |init| ==> init[j] == xs[j];
      LastWithIs(init, field, k, i);
    }
  }

  class GameDataState {
    /** allTamagotchis. */
    var pets: seq<Val>
    /** otherMousePositions. */
    var cursors: seq<Val>
    /** Every pushToast call, in order. */
    var toasts: seq<Toast>
    /** Ids whose three-second hide timer is running, oldest first. */
    var pendingHides: seq<Val>
    /** hiddenDeadMineIds. */
    var hidden: set<Val>
    /** currentUser.value. */
    const me: Val
    /** Whether a pushToast callback was supplied. */
    const toasting: bool

    constructor (me: Val, toasting: bool)
      ensures this.me == me && this.toasting == toasting
      ensures pets == [] && cursors == [] && toasts == [] && pendingHides == [] && hidden == {}
    {
      this.me, this.toasting := me, toasting;
      pets, cursors, toasts, pendingHides, hidden := [], [], [], [], {};
    }

    /** handleWebSocketMessage. */
    method HandleWebSocketMessage(message: Val)
      modifies this`pets, this`cursors, this`toasts, this`pendingHides
      ensures pets == WsPets(old(pets), message)
      ensures cursors == if IsType(message, "mouse_position") then OnMouse(old(cursors), message, me) else old(cursors)
      ensures toasts == old(toasts) + Raised(toasting, WsKnockOuts(old(pets), message))
      ensures pendingHides == old(pendingHides) + OwnHides(WsKnockOuts(old(pets), message), me)
    {
      if IsType(message, "tamagotchi_created") {
        pets := OnCreated(pets, Prop(message, "tamagotchi"));
      } else if IsType(message, "stats_update") {
        HandleStats(message);
      } else if IsType(message, "position_update") {
        pets := OnPositions(pets, Prop(message, "positions"), true);
      } else if IsType(message, "mouse_position") {
        cursors := OnMouse(cursors, message, me);
      } else if IsType(message, "tamagotchi_removed") {
        pets := OnRemoved(pets, Prop(message, "id"));
      }
    }

    /** The stats_update case: the list is rebuilt, then the batch's knock-outs are noticed. */
    method HandleStats(message: Val)
      modifies this`pets, this`toasts, this`pendingHides
      ensures pets == OnStats(old(pets), message)
      ensures toasts == old(toasts) + Raised(toasting, KnockOuts(MapFrom(BatchItems(message), "id"), MapFrom(old(pets), "id")))
      ensures pendingHides == old(pendingHides) + OwnHides(KnockOuts(MapFrom(BatchItems(message), "id"), MapFrom(old(pets), "id")), me)
    {
      var byId := MapFrom(BatchItems(message), "id");
      var before := MapFrom(pets, "id");
      pets := OnStats(pets, message);
      KnockOutNotices(byId, before);
    }

    /** The knock-out loop over the batch map's entries. */
    method KnockOutNotices(entries: seq<Entry>, before: seq<Entry>)
      modifies this`toasts, this`pendingHides
      ensures toasts == old(toasts) + Raised(toasting, KnockOuts(entries, before))
      ensures pendingHides == old(pendingHides) + OwnHides(KnockOuts(entries, before), me)
    {
      var i := 0;
      while i < |entries|
        invariant 0 <= i <= |entries|
        invariant toasts == old(toasts) + Raised(toasting, NoticesUpTo(entries, before, i))
        invariant pendingHides == old(pendingHides) + OwnHides(NoticesUpTo(entries, before, i), me)
      {
        ghost var t1, h1 := toasts, pendingHides;
        NoticeOne(entries[i], before);
        NoticesStep(entries, before, i, me, toasting);
        Regroup(old(toasts), Raised(toasting, NoticesUpTo(entries, before, i)), Raised(toasting, Notice(entries[i], before)), t1, toasts);
        Regroup(old(pendingHides), OwnHides(NoticesUpTo(entries, before, i), me), OwnHides(Notice(entries[i], before), me), h1, pendingHides);
        i := i + 1;
      }
      NoticesUpToAll(entries, before);
    }

    /** One entry of the loop: the knock-out test, then the notice. */
    method NoticeOne(e: Entry, before: seq<Entry>)
      modifies this`toasts, this`pendingHides
      ensures toasts == old(toasts) + Raised(toasting, Notice(e, before))
      ensures pendingHides == old(pendingHides) + OwnHides(Notice(e, before), me)
    {
      var prev := MapGet(before, e.key);
      if Truthy(prev) && Truthy(Prop(prev, "isAlive")) && ReportedAlive(e.value) == Bool(false) {
        Notify(prev);
      }
    }

    /** One knock-out: queue the hide for an own pet, then raise the toast. */
    method Notify(prev: Val)
      modifies this`toasts, this`pendingHides
      ensures pendingHides == old(pendingHides) + (if Prop(prev, "ownerId") == Prop(me, "id") then [IdOf(prev)] else [])
      ensures toasts == old(toasts) + (if toasting then [KnockedOut(Prop(prev, "name"))] else [])
    {
      if Prop(prev, "ownerId") == Prop(me, "id") {
        pendingHides := pendingHides + [IdOf(prev)];
      }
      if toasting {
        toasts := toasts + [KnockedOut(Prop(prev, "name"))];
      }
    }

    /** A hide timer fires; the timers share one delay, so they fire in the order they were set. */
    method HideTimerFires()
      requires pendingHides != []
      modifies this`pendingHides, this`hidden
      ensures hidden == old(hidden) + {old(pendingHides)[0]} && pendingHides == old(pendingHides)[1..]
    {
      hidden := hidden + {pendingHides[0]};
      pendingHides := pendingHides[1..];
    }

    /** The subscription watcher over `newResult?.tamagotchiUpdates`. */
    method HandleSubscriptionResult(newResult: Val)
      modifies this`pets, this`toasts, this`pendingHides
      ensures var update := Prop(newResult, "tamagotchiUpdates");
        var u := Prop(update, "tamagotchi");
        && (!Truthy(update) ==> pets == old(pets) && toasts == old(toasts) && pendingHides == old(pendingHides))
        && (Truthy(update) && IsType(update, "stats_update") && Truthy(u) ==>
              pets == OnSubscriptionStats(old(pets), u))
        && (Truthy(update) && IsType(update, "stats_update") && !Truthy(u) ==> pets == old(pets))
        && (Truthy(update) && !(IsType(update, "stats_update") || IsType(update, "position_update") ||
              IsType(update, "tamagotchi_created") || IsType(update, "tamagotchi_removed")) ==>
              pets == old(pets))
        && (Truthy(update) && IsType(update, "position_update") ==>
              pets == OnPositions(old(pets), Prop(update, "positions"), false))
        && (Truthy(update) && IsType(update, "tamagotchi_created") ==>
              pets == OnSubscriptionCreated(old(pets), u))
        && (Truthy(update) && IsType(update, "tamagotchi_removed") ==>
              pets == OnRemoved(old(pets), Prop(update, "id")))
        && (Truthy(update) && IsType(update, "stats_update") && Truthy(u) && SubscriptionKnockOut(old(pets), u) ==>
              var prev := MapGet(MapFrom(old(pets), "id"), IdOf(u));
              && toasts == old(toasts) + Raised(toasting, [prev])
              && pendingHides == old(pendingHides) + OwnHides([prev], me))
        && (!(Truthy(update) && IsType(update, "stats_update") && Truthy(u) && SubscriptionKnockOut(old(pets), u)) ==>
              toasts == old(toasts) && pendingHides == old(pendingHides))
    {
      var update := Prop(newResult, "tamagotchiUpdates");
      if !Truthy(update) {
        return;
      }
      if IsType(update, "stats_update") {
        var u := Prop(update, "tamagotchi");
        if Truthy(u) {
          var before := MapFrom(pets, "id");
          pets := OnSubscriptionStats(pets, u);
          var prev := MapGet(before, IdOf(u));
          if Truthy(prev) && Truthy(Prop(prev, "isAlive")) && !Truthy(Prop(u, "isAlive")) {
            Notify(prev);
          }
        }
      } else if IsType(update, "position_update") {
        pets := OnPositions(pets, Prop(update, "positions"), false);
      } else if IsType(update, "tamagotchi_created") {
        var nt := Prop(update, "tamagotchi");
        if Truthy(nt) && !HasId(pets, IdOf(nt)) {
          pets := pets + [Normalized(nt)];
        }
      } else if IsType(update, "tamagotchi_removed") {
        pets := OnRemoved(pets, Prop(update, "id"));
      }
    }
  }
}
