/**
 * The client's derived lists and selection (frontend/src/composables/useUIState.js):
 * which pets the board shows, the current user's pets, the other users online,
 * owner names and status labels, and the selected pet kept in step with the
 * live list.
 */
module UIState {
  import opened Js
  import opened GameData

  /** `t.ownerId === currentUser.value?.id`. */
  predicate IsMine(t: Val, me: Val) {
    Prop(t, "ownerId") == Prop(me, "id")
  }

  /** The `visibleTamagotchis` test for one pet. */
  predicate Shown(t: Val, me: Val, selectedUserIds: seq<Val>, showMyKnockedOut: bool, showDeadPets: bool, hidden: set<Val>) {
    var mine := IsMine(t, me);
    var ownerSelected := mine || |selectedUserIds| == 0 || Prop(t, "ownerId") in selectedUserIds;
    var deadOk := Truthy(Prop(t, "isAlive")) || (if mine then showMyKnockedOut else showDeadPets);
    var hiddenMineDead := mine && IdOf(t) in hidden;
    ownerSelected && deadOk && !hiddenMineDead
  }

  function VisibleTamagotchis(all: seq<Val>, me: Val, selectedUserIds: seq<Val>, showMyKnockedOut: bool,
                              showDeadPets: bool, hidden: set<Val>): seq<Val> {
    Filter(all, t => Shown(t, me, selectedUserIds, showMyKnockedOut, showDeadPets, hidden))
  }

  /**
   * The board shows the pets of the list, in its order, that pass the owner
   * filter, the knocked-out filter and the hide set.
   */
  lemma VisibleRule(all: seq<Val>, me: Val, sel: seq<Val>, showMine: bool, showDead: bool, hidden: set<Val>)
    ensures var v := VisibleTamagotchis(all, me, sel, showMine, showDead, hidden);
      && IsSubsequence(v, all)
      && (forall t :: t in v <==> t in all && Shown(t, me, sel, showMine, showDead, hidden))
  {
    FilterRule(all, t => Shown(t, me, sel, showMine, showDead, hidden));
  }

  /**
   * Own pets always pass the owner filter and an empty selection lets every
   * owner pass; a knocked-out pet shows only under its switch, and an own pet
   * in the hide set never shows.
   */
  lemma VisibleFilters(all: seq<Val>, me: Val, sel: seq<Val>, showMine: bool, showDead: bool, hidden: set<Val>)
    ensures var v := VisibleTamagotchis(all, me, sel, showMine, showDead, hidden);
      && (forall t :: t in all && IsMine(t, me) && Truthy(Prop(t, "isAlive")) && IdOf(t) !in hidden ==> t in v)
      && (|sel| == 0 ==> forall t :: t in all && !IsMine(t, me) && Truthy(Prop(t, "isAlive")) ==> t in v)
      && (forall t :: t in v && !IsMine(t, me) && |sel| > 0 ==> Prop(t, "ownerId") in sel)
      && (forall t :: t in v && !Truthy(Prop(t, "isAlive")) ==> if IsMine(t, me) then showMine else showDead)
      && (forall t :: t in v && IsMine(t, me) ==> IdOf(t) !in hidden)
  {
    VisibleRule(all, me, sel, showMine, showDead, hidden);
  }

  function MyTamagotchis(all: seq<Val>, me: Val): seq<Val> {
    Filter(all, t => IsMine(t, me))
  }

  /** Exactly the current user's pets, in list order. */
  lemma MyTamagotchisRule(all: seq<Val>, me: Val)
    ensures IsSubsequence(MyTamagotchis(all, me), all)
    ensures forall t :: t in MyTamagotchis(all, me) <==> t in all && IsMine(t, me)
  {
    FilterRule(all, t => IsMine(t, me));
  }

  predicate IsOnline(u: Val) {
    Truthy(Prop(u, "isOnline"))
  }

  /** `onlineUsers.filter((u) => u.id !== currentUser.value?.id)`. */
  function OnlineOthers(users: seq<Val>, me: Val): seq<Val> {
    Filter(Filter(users, IsOnline), u => IdOf(u) != Prop(me, "id"))
  }

  /** The online users other than the current user; the current user never appears. */
  lemma OnlineOthersRule(users: seq<Val>, me: Val)
    ensures forall u :: u in OnlineOthers(users, me) <==> u in users && IsOnline(u) && IdOf(u) != Prop(me, "id")
  {
    FilterRule(users, IsOnline);
    FilterRule(Filter(users, IsOnline), u => IdOf(u) != Prop(me, "id"));
  }

  /** The list keeps the users' order. */
  lemma OnlineOthersOrder(users: seq<Val>, me: Val)
    ensures IsSubsequence(OnlineOthers(users, me), users)
  {
    var online := Filter(users, IsOnline);
    FilterRule(users, IsOnline);
    FilterRule(online, u => IdOf(u) != Prop(me, "id"));
    SubsequenceTrans(OnlineOthers(users, me), online, users);
  }

  /** Deleting from a sequence obtained by deleting is deleting. */
  lemma {:induction false} SubsequenceTrans(xs: seq<Val>, ys: seq<Val>, zs: seq<Val>)
    requires IsSubsequence(xs, ys) && IsSubsequence(ys, zs)
    ensures IsSubsequence(xs, zs)
    decreases |zs|
  {
    if xs != [] {
      assert ys != [] && zs != [];
      if ys[0] == zs[0] && IsSubsequence(ys[1..], zs[1..]) {
        if xs[0] == ys[0] && IsSubsequence(xs[1..], ys[1..]) {
          SubsequenceTrans(xs[1..], ys[1..], zs[1..]);
        } else {
          SubsequenceTrans(xs, ys[1..], zs[1..]);
        }
      } else {
        SubsequenceTrans(xs, ys, zs[1..]);
      }
    }
  }

  /** `list[i]` is the first element whose id is `id`. */
  predicate FirstWithId(list: seq<Val>, i: int, id: Val) {
    0 <= i < |list| && IdOf(list[i]) == id && forall j :: 0 <= j < i ==> IdOf(list[j]) != id
  }

  /** The username of the first user with that id, or 'Unknown'. */
  function GetOwnerName(users: seq<Val>, ownerId: Val): Val {
    var owner := Find(users, u => IdOf(u) == ownerId);
    if Truthy(owner) then Prop(owner, "username") else Str("Unknown")
  }

  /** No element has the id: the search answers undefined. */
  lemma FindByIdNone(list: seq<Val>, id: Val)
    requires forall i :: 0 <= i < |list| ==> IdOf(list[i]) != id
    ensures Find(list, u => IdOf(u) == id) == Undefined
  {
  }

  /** The search answers the first element with the id. */
  lemma FindByIdFirst(list: seq<Val>, id: Val, i: int)
    requires FirstWithId(list, i, id)
    ensures Find(list, u => IdOf(u) == id) == list[i]
  {
    var k := FindIndex(list, u => IdOf(u) == id);
    assert k != -1 by {
      assert (u => IdOf(u) == id)(list[i]);
    }
    assert k == i;
  }

  /** An unknown owner is 'Unknown'; a known one is named by the first user with the id. */
  lemma GetOwnerNameRule(users: seq<Val>, ownerId: Val)
    ensures (forall i :: 0 <= i < |users| ==> IdOf(users[i]) != ownerId) ==> GetOwnerName(users, ownerId) == Str("Unknown")
    ensures forall i :: FirstWithId(users, i, ownerId) && users[i].Obj? ==>
      GetOwnerName(users, ownerId) == Prop(users[i], "username")
  {
    if forall i :: 0 <= i < |users| ==> IdOf(users[i]) != ownerId {
      FindByIdNone(users, ownerId);
    }
    forall i | FirstWithId(users, i, ownerId) && users[i].Obj?
      ensures GetOwnerName(users, ownerId) == Prop(users[i], "username")
    {
      FindByIdFirst(users, ownerId, i);
    }
  }

  /** 'Dead' is shown as 'Knocked Out'; every other status as it is. */
  function DisplayStatus(status: Val): (r: Val)
    ensures status == Str("Dead") <==> r == Str("Knocked Out") && status != Str("Knocked Out")
    ensures status != Str("Dead") ==> r == status
  {
    if status == Str("Dead") then Str("Knocked Out") else status
  }

  /**
   * The selection after the list changes: the first entry with its id, and
   * the selection as it was when there is none or no such entry. Either way
   * the selected id does not change.
   */
  function Refreshed(sel: Val, list: seq<Val>): Val {
    if !Truthy(sel) then sel
    else
      var updated := Find(list, t => IdOf(t) == IdOf(sel));
      if Truthy(updated) then updated else sel
  }

  lemma RefreshedRule(sel: Val, list: seq<Val>)
    ensures IdOf(Refreshed(sel, list)) == IdOf(sel)
    ensures !Truthy(sel) ==> Refreshed(sel, list) == sel
    ensures (forall i :: 0 <= i < |list| ==> IdOf(list[i]) != IdOf(sel)) ==> Refreshed(sel, list) == sel
    ensures forall i :: Truthy(sel) && FirstWithId(list, i, IdOf(sel)) && list[i].Obj? ==> Refreshed(sel, list) == list[i]
  {
    if forall i :: 0 <= i < |list| ==> IdOf(list[i]) != IdOf(sel) {
      FindByIdNone(list, IdOf(sel));
    }
    forall i | Truthy(sel) && FirstWithId(list, i, IdOf(sel)) && list[i].Obj?
      ensures Refreshed(sel, list) == list[i]
    {
      FindByIdFirst(list, IdOf(sel), i);
    }
  }

  class UIState {
    /** selectedTamagotchi. */
    var selected: Val

    constructor ()
      ensures selected == Null
    {
      selected := Null;
    }

    /** selectTamagotchi. */
    method SelectTamagotchi(t: Val)
      modifies this`selected
      ensures selected == t
    {
      selected := t;
    }

    /** The watch on the pet list. */
    method OnListChange(list: seq<Val>)
      modifies this`selected
      ensures selected == Refreshed(old(selected), list)
    {
      var sel := selected;
      if !Truthy(sel) {
        return;
      }
      var updated := Find(list, t => IdOf(t) == IdOf(sel));
      if Truthy(updated) {
        selected := updated;
      }
    }
  }
}
