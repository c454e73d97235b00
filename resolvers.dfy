/**
 * The GraphQL mutation resolvers for pets (app/graphql/mutations.py): a chain
 * of guard checks in front of GameStorage. A check either raises, modelled as
 * `Err(message)` with the exact message, or lets the call through to the
 * store; the store's result is passed back or turned into an error when it is
 * empty.
 */
module Resolvers {
  import opened Common
  import opened Pets
  import opened Persistence
  import opened Storage

  /** The request context; `user_id` is absent when the token was missing or invalid. */
  datatype Context = Context(userId: Option<string>)

  /** A resolver's result: the returned value or the message of the raised exception. */
  datatype Outcome<T> = Ok(value: T) | Err(message: string)

  /** What the guard chain decides before the store is called. */
  datatype Gate = Proceed(caller: string) | AlreadyGone | Refuse(message: string)

  /** The pet mutations that look the pet up before delegating. */
  datatype Kind = Move | Support | Revive | Release

  const AUTH_REQUIRED := "Authentication required"
  const NOT_FOUND := "Tamagotchi not found"
  const NOT_AUTHORIZED_UPDATE := "Not authorized to update this Tamagotchi"
  const OWN_PET := "You cannot support your own Tamagotchi"
  const NOT_AUTHORIZED_REVIVE := "Not authorized to revive this Tamagotchi"
  const NOT_AUTHORIZED_RELEASE := "Not authorized to release this Tamagotchi"
  const FAILED_UPDATE := "Failed to update location"
  const FAILED_SUPPORT := "Failed to support Tamagotchi"
  const FAILED_REVIVE := "Failed to revive Tamagotchi"
  const FAILED_RELEASE := "Failed to release Tamagotchi"

  /** `not user_id`: a missing id and the empty string are both rejected. */
  predicate Authenticated(ctx: Context) {
    ctx.userId.Some? && ctx.userId.value != ""
  }

  /** The message raised when the caller fails the ownership check of `kind`. */
  function Denial(kind: Kind): string {
    match kind
    case Move => NOT_AUTHORIZED_UPDATE
    case Support => OWN_PET
    case Revive => NOT_AUTHORIZED_REVIVE
    case Release => NOT_AUTHORIZED_RELEASE
  }

  /**
   * The guard chain of update_tamagotchi_location, support_tamagotchi,
   * revive_tamagotchi and release_tamagotchi: authentication, then existence,
   * then ownership (support demands the opposite: a pet of someone else).
   */
  function Guard(ctx: Context, pets: map<string, Pet>, id: string, kind: Kind): (g: Gate)
    ensures !Authenticated(ctx) ==> g == Refuse(AUTH_REQUIRED)
    ensures Authenticated(ctx) && id !in pets ==>
      g == if kind == Release then AlreadyGone else Refuse(NOT_FOUND)
    ensures Authenticated(ctx) && id in pets ==>
      var mine := pets[id].owner == ctx.userId.value;
      g == if mine == (kind != Support) then Proceed(ctx.userId.value) else Refuse(Denial(kind))
    ensures g.AlreadyGone? ==> kind == Release
  {
    if !Authenticated(ctx) then Refuse(AUTH_REQUIRED)
    else if id !in pets then (if kind == Release then AlreadyGone else Refuse(NOT_FOUND))
    else
      var caller := ctx.userId.value;
      match kind
      case Support => if pets[id].owner == caller then Refuse(OWN_PET) else Proceed(caller)
      case _ => if pets[id].owner != caller then Refuse(Denial(kind)) else Proceed(caller)
  }

  /** A call that passes the guard of an owner-only mutation comes from the owner of an existing pet. */
  lemma GuardPassesOnlyOwner(ctx: Context, pets: map<string, Pet>, id: string, kind: Kind)
    requires kind != Support && Guard(ctx, pets, id, kind).Proceed?
    ensures Authenticated(ctx) && OwnerOf(pets, ctx.userId.value, id)
  {
  }

  /** A call that passes support's guard is someone else's and reaches the store, which then only checks liveness. */
  lemma SupportGuardLeavesLiveness(ctx: Context, pets: map<string, Pet>, id: string)
    requires Guard(ctx, pets, id, Support).Proceed?
    ensures SupportAllowed(pets, ctx.userId.value, id) <==> pets[id].alive
  {
  }

  /** create_tamagotchi: the authenticated caller becomes the owner. */
  method CreateTamagotchi(store: GameStorage, ctx: Context, name: string, id: string, x: real, y: real,
                          direction: real, emoji: string, now: real) returns (r: Outcome<Pet>)
    requires store.Valid() && id !in store.pets && SpawnChoice(x, y, direction, emoji)
    modifies store`pets, store`saver, store`saved, store`outbox
    ensures store.Valid()
    ensures !Authenticated(ctx) ==>
      && r == Err(AUTH_REQUIRED)
      && store.pets == old(store.pets) && store.saver == old(store.saver)
      && store.saved == old(store.saved) && store.outbox == old(store.outbox)
    ensures Authenticated(ctx) ==>
      && r == Ok(NewPet(id, name, ctx.userId.value, x, y, direction, emoji, now))
      && store.pets == old(store.pets)[id := r.value]
      && (store.saver, store.saved) == Persisted(old(store.saver), old(store.saved), Snapshot(store.pets, store.mouse), true)
      && store.outbox == old(store.outbox) + store.Announce(PetCreated(r.value))
  {
    if !Authenticated(ctx) {
      return Err(AUTH_REQUIRED);
    }
    var p := store.CreateTamagotchi(name, ctx.userId.value, id, x, y, direction, emoji, now);
    r := Ok(p);
  }

  /** update_mouse_position: records the authenticated caller's cursor and answers true. */
  method UpdateMousePosition(store: GameStorage, ctx: Context, x: real, y: real, now: real) returns (r: Outcome<bool>)
    modifies store`users, store`mouse, store`outbox
    ensures !Authenticated(ctx) || ctx.userId.value !in old(store.users) ==>
      store.users == old(store.users) && store.mouse == old(store.mouse) && store.outbox == old(store.outbox)
    ensures !Authenticated(ctx) ==> r == Err(AUTH_REQUIRED)
    ensures Authenticated(ctx) ==> r == Ok(true)
    ensures Authenticated(ctx) && ctx.userId.value in old(store.users) ==>
      var user := ctx.userId.value;
      var c := Cursor(user, old(store.users)[user].username, x, y, now);
      && store.users == old(store.users)[user := old(store.users)[user].(mouseX := x, mouseY := y)]
      && store.mouse == old(store.mouse)[user := c]
      && store.outbox == old(store.outbox) + store.Announce(MousePosition(c))
  {
    if !Authenticated(ctx) {
      return Err(AUTH_REQUIRED);
    }
    store.UpdateMousePosition(ctx.userId.value, x, y, now);
    r := Ok(true);
  }

  /**
   * update_tamagotchi_location: the resolver, not the store, enforces
   * ownership; a call that passes always finds the pet.
   */
  method UpdateTamagotchiLocation(store: GameStorage, ctx: Context, id: string, x: real, y: real)
    returns (r: Outcome<Pet>)
    requires store.Valid()
    modifies store`pets, store`saver, store`outbox
    ensures store.Valid()
    ensures var g := Guard(ctx, old(store.pets), id, Move);
      && (g.Refuse? ==>
            && r == Err(g.message)
            && store.pets == old(store.pets) && store.saver == old(store.saver) && store.outbox == old(store.outbox))
      && (g.Proceed? ==>
            && r == Ok(Relocated(old(store.pets)[id], x, y))
            && store.pets == old(store.pets)[id := r.value]
            && store.saver == Schedule(old(store.saver))
            && store.outbox == old(store.outbox) + store.Announce(PositionUpdate(id, r.value.position.x,
                 r.value.position.y, r.value.position.direction.value)))
  {
    var g := Guard(ctx, store.pets, id, Move);
    if !g.Proceed? {
      return Err(g.message);
    }
    var u := store.UpdateTamagotchiLocation(id, x, y);
    if u.None? {
      return Err(FAILED_UPDATE);
    }
    r := Ok(u.value);
  }

  /** support_tamagotchi: a dead pet passes the guard but the store refuses it. */
  method SupportTamagotchi(store: GameStorage, ctx: Context, id: string) returns (r: Outcome<Pet>)
    requires store.Valid()
    modifies store`pets, store`saver, store`saved, store`outbox
    ensures store.Valid()
    ensures var g := Guard(ctx, old(store.pets), id, Support);
      && (g.Refuse? ==> r == Err(g.message))
      && (g.Proceed? && !old(store.pets)[id].alive ==> r == Err(FAILED_SUPPORT))
      && (r.Err? ==>
            && store.pets == old(store.pets) && store.saver == old(store.saver)
            && store.saved == old(store.saved) && store.outbox == old(store.outbox))
      && (g.Proceed? && old(store.pets)[id].alive ==>
            && r == Ok(Supported(old(store.pets)[id]))
            && store.pets == old(store.pets)[id := r.value]
            && (store.saver, store.saved) ==
               Persisted(old(store.saver), old(store.saved), Snapshot(store.pets, store.mouse), !r.value.alive)
            && store.outbox == old(store.outbox) + store.Announce(StatsUpdate(Summarize(r.value))))
  {
    var g := Guard(ctx, store.pets, id, Support);
    if !g.Proceed? {
      return Err(g.message);
    }
    var u := store.SupportTamagotchi(g.caller, id);
    if u.None? {
      return Err(FAILED_SUPPORT);
    }
    r := Ok(u.value);
  }

  /** revive_tamagotchi: only the owner, and the store then always revives. */
  method ReviveTamagotchi(store: GameStorage, ctx: Context, id: string, now: real) returns (r: Outcome<Pet>)
    requires store.Valid()
    modifies store`pets, store`saver, store`saved, store`outbox
    ensures store.Valid()
    ensures var g := Guard(ctx, old(store.pets), id, Revive);
      && (g.Refuse? ==>
            && r == Err(g.message)
            && store.pets == old(store.pets) && store.saver == old(store.saver)
            && store.saved == old(store.saved) && store.outbox == old(store.outbox))
      && (g.Proceed? ==>
            && r == Ok(Revived(old(store.pets)[id], now))
            && store.pets == old(store.pets)[id := r.value]
            && (store.saver, store.saved) ==
               Persisted(old(store.saver), old(store.saved), Snapshot(store.pets, store.mouse), true)
            && store.outbox == old(store.outbox) + store.Announce(StatsUpdate(Summarize(r.value))))
  {
    var g := Guard(ctx, store.pets, id, Revive);
    if !g.Proceed? {
      return Err(g.message);
    }
    var u := store.ReviveTamagotchi(g.caller, id, now);
    if u.None? {
      return Err(FAILED_REVIVE);
    }
    r := Ok(u.value);
  }

  /**
   * release_tamagotchi: releasing a pet that is already gone succeeds without
   * touching the store, so a repeated release answers true again.
   */
  method ReleaseTamagotchi(store: GameStorage, ctx: Context, id: string) returns (r: Outcome<bool>)
    requires store.Valid()
    modifies store`pets, store`saver, store`saved, store`outbox
    ensures store.Valid()
    ensures var g := Guard(ctx, old(store.pets), id, Release);
      && (g.Refuse? ==> r == Err(g.message))
      && (g.AlreadyGone? ==> r == Ok(true))
      && (!g.Proceed? ==>
            && store.pets == old(store.pets) && store.saver == old(store.saver)
            && store.saved == old(store.saved) && store.outbox == old(store.outbox))
      && (g.Proceed? ==>
            && r == Ok(true)
            && store.pets == old(store.pets) - {id}
            && (store.saver, store.saved) ==
               Persisted(old(store.saver), old(store.saved), Snapshot(store.pets, store.mouse), true)
            && store.outbox == old(store.outbox) + store.Announce(PetRemoved(id)))
    ensures Authenticated(ctx) && r.Ok? ==> id !in store.pets
  {
    var g := Guard(ctx, store.pets, id, Release);
    if g.Refuse? {
      return Err(g.message);
    }
    if g.AlreadyGone? {
      return Ok(true);
    }
    var ok := store.ReleaseTamagotchi(g.caller, id);
    if !ok {
      return Err(FAILED_RELEASE);
    }
    r := Ok(true);
  }
}
