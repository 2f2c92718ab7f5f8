/** The user collection as the controllers see it: a map from id to user
    record, a `findOne` that may return any matching record, and the
    writes the controllers issue (`save`, `findByIdAndUpdate`). The schema,
    its validators and its save hooks (models/userModel.js) are not part of
    this model: the store keeps each field as the controller assigned it. */
module UserModel {
  import opened Js

  type UserId = string

  /** A user document. `password` is `None` when it is `undefined` or was not
      selected; the two reset fields are `None` when cleared. */
  datatype User = User(
    id: UserId,
    name: string,
    email: string,
    role: string,
    password: Option<string>,
    passwordConfirm: Option<string>,
    passwordChangedAt: Option<int>,
    passwordResetToken: Option<string>,
    passwordResetExpires: Option<int>,
    active: bool)

  /** The document as a query returns it by default: without its password. */
  function WithoutPassword(u: User): (r: User)
    ensures r.password.None?
    ensures r.(password := u.password) == u
  {
    u.(password := None)
  }

  /** A user holds a reset token whose stored hash is `hash` and whose expiry
      lies strictly after `now` (`{ passwordResetToken: hash,
      passwordResetExpires: { $gt: now } }`). */
  predicate ResetTokenLive(u: User, hash: string, now: int)
  {
    u.passwordResetToken == Some(hash) && u.passwordResetExpires.Some? && u.passwordResetExpires.value > now
  }

  /** The filters the controllers pass to `findOne`. */
  datatype Query = ByEmail(email: Option<string>) | ByLiveResetToken(hash: string, now: int)

  predicate Matches(u: User, q: Query)
  {
    match q
    case ByEmail(e) => e == Some(u.email)
    case ByLiveResetToken(h, now) => ResetTokenLive(u, h, now)
  }

  /** The ids of the users that hold a live reset token with this hash. */
  function LiveResetHolders(users: map<UserId, User>, hash: string, now: int): (ids: set<UserId>)
    ensures forall id :: id in ids <==> id in users && ResetTokenLive(users[id], hash, now)
  {
    set id | id in users && ResetTokenLive(users[id], hash, now)
  }

  class UserStore {
    var users: map<UserId, User>

    /** Every record is stored under its own id. */
    ghost predicate Valid()
      reads this
    {
      forall id :: id in users ==> users[id].id == id
    }

    constructor (initial: map<UserId, User>)
      requires forall id :: id in initial ==> initial[id].id == id
      ensures Valid() && users == initial
    {
      users := initial;
    }

    /** `findOne(filter)`: some record that matches, or `None` exactly when
        none does. Which one is returned when several match is the store's
        choice. */
    method FindOne(q: Query) returns (found: Option<UserId>)
      requires Valid()
      ensures found.Some? ==> found.value in users && Matches(users[found.value], q)
      ensures found.None? <==> forall id :: id in users ==> !Matches(users[id], q)
    {
      if exists id :: id in users && Matches(users[id], q) {
        var id :| id in users && Matches(users[id], q);
        found := Some(id);
      } else {
        found := None;
      }
    }

    /** `doc.save()`: the stored record becomes `doc`; nothing else changes. */
    method Save(doc: User)
      requires Valid() && doc.id in users
      modifies this
      ensures Valid()
      ensures users == old(users)[doc.id := doc]
    {
      users := users[doc.id := doc];
    }

    /** `findByIdAndUpdate(id, fields, { new: true })` for an update holding
        only profile fields: `name` and `email` take the values given, every
        other field keeps its value. Gives the updated record without its
        password, or `None` when there is no such user. */
    method UpdateProfile(id: UserId, fields: map<string, string>) returns (updated: Option<User>)
      requires Valid() && fields.Keys <= {"name", "email"}
      modifies this
      ensures Valid()
      ensures id !in old(users) ==> users == old(users) && updated.None?
      ensures id in old(users) ==>
        && users == old(users)[id := ProfileUpdated(old(users)[id], fields)]
        && updated == Some(WithoutPassword(users[id]))
    {
      if id in users {
        var doc := ProfileUpdated(users[id], fields);
        users := users[id := doc];
        updated := Some(WithoutPassword(doc));
      } else {
        updated := None;
      }
    }

    /** `findByIdAndUpdate(id, { active: false })`: a soft delete. */
    method Deactivate(id: UserId)
      requires Valid()
      modifies this
      ensures Valid()
      ensures id !in old(users) ==> users == old(users)
      ensures id in old(users) ==> users == old(users)[id := old(users)[id].(active := false)]
    {
      if id in users {
        users := users[id := users[id].(active := false)];
      }
    }
  }

  /** A record after an update of its `name` and `email` paths: the paths
      present in `fields` take the given values, every other field is kept. */
  function ProfileUpdated(u: User, fields: map<string, string>): (r: User)
    ensures r.name == (if "name" in fields then fields["name"] else u.name)
    ensures r.email == (if "email" in fields then fields["email"] else u.email)
    ensures r.(name := u.name, email := u.email) == u
  {
    u.(name := if "name" in fields then fields["name"] else u.name,
       email := if "email" in fields then fields["email"] else u.email)
  }
}
