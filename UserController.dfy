/** The logged-in user's own routes (controllers/userController.js): the
    field whitelist `filterObj`, `getMe`, `updateMe`, the soft delete
    `deleteMe`, and the disabled `createUser`. Each route handler runs after
    `protect`, so `req.user` is set. */
module UserController {
  import opened Js
  import opened AppError
  import opened UserModel
  import opened Express

  /** The entries of `obj` whose key is allowed, each with its value. */
  function Filtered<V>(obj: map<string, V>, allowFields: seq<string>): map<string, V>
  {
    map k | k in obj && k in allowFields :: obj[k]
  }

  /** `filterObj(obj, ...allowFields)`: a fresh object holding exactly the
      keys of `obj` that are allowed, each with its original value. */
  method FilterObj<V>(obj: map<string, V>, allowFields: seq<string>) returns (newObj: map<string, V>)
    ensures forall k :: k in newObj <==> k in obj && k in allowFields
    ensures forall k :: k in newObj ==> newObj[k] == obj[k]
    ensures newObj == Filtered(obj, allowFields)
  {
    newObj := map[];
    var keys := obj.Keys;   // Object.keys(obj)
    while keys != {}
      invariant keys <= obj.Keys
      invariant forall k :: k in newObj <==> k in obj && k !in keys && k in allowFields
      invariant forall k :: k in newObj ==> newObj[k] == obj[k]
      decreases keys
    {
      var el :| el in keys;
      if el in allowFields {
        newObj := newObj[el := obj[el]];
      }
      keys := keys - {el};
    }
  }

  /** Filtering again with the same whitelist changes nothing. */
  lemma FilteredIdempotent<V>(obj: map<string, V>, allowFields: seq<string>)
    ensures Filtered(Filtered(obj, allowFields), allowFields) == Filtered(obj, allowFields)
  {
  }

  /** The result is a sub-map of the input: no key is added, no value changed. */
  lemma FilteredIsSubmap<V>(obj: map<string, V>, allowFields: seq<string>)
    ensures Filtered(obj, allowFields).Keys <= obj.Keys
    ensures forall k :: k in Filtered(obj, allowFields) ==> Filtered(obj, allowFields)[k] == obj[k]
  {
  }

  function PasswordRouteError(): ErrorRecord
  {
    NewAppError("This route is not for password update. Please use /updateMyPassword", Some(400))
  }

  /** `getMe`: the route parameter `id` becomes the logged-in user's id. */
  method GetMe(req: Request) returns (next: Next)
    requires req.user.Some?
    modifies req`paramsId
    ensures req.paramsId == Some(req.user.value.id)
    ensures next == Called
  {
    req.paramsId := Some(req.user.value.id);
    next := Called;
  }

  /** `updateMe`: a body carrying a truthy `password` or `passwordConfirm`
      gets the 400 and the store is not written; otherwise only `name` and
      `email`, those of them present, are written, and the updated user is
      sent with a 200. */
  method UpdateMe(store: UserStore, req: Request, res: Response) returns (next: Next)
    requires store.Valid() && req.user.Some?
    modifies store, res`reply
    ensures store.Valid()
    ensures Truthy(req.Field("password")) || Truthy(req.Field("passwordConfirm")) ==>
      && next == CalledWithError(PasswordRouteError())
      && store.users == old(store.users) && res.reply == old(res.reply)
    ensures !Truthy(req.Field("password")) && !Truthy(req.Field("passwordConfirm")) ==>
      var id := req.user.value.id;
      var fields := Filtered(req.body, ["name", "email"]);
      && store.users == (if id in old(store.users) then old(store.users)[id := ProfileUpdated(old(store.users)[id], fields)]
                         else old(store.users))
      && res.reply == Some(Reply(200, UserBody(if id in store.users then Some(WithoutPassword(store.users[id])) else None)))
      && next == NotCalled
  {
    // 1) password data is refused here
    if Truthy(req.Field("password")) || Truthy(req.Field("passwordConfirm")) {
      return CalledWithError(PasswordRouteError());
    }
    // 2) only the allowed fields
    var filteredBody := FilterObj(req.body, ["name", "email"]);
    // 3) the update
    var updatedUser := store.UpdateProfile(req.user.value.id, filteredBody);
    res.reply := Some(Reply(200, UserBody(updatedUser)));
    next := NotCalled;
  }

  /** Whatever else the body holds (a role, a reset token, ...), the update
      `updateMe` issues sets at most `name` and `email`, to the values posted. */
  lemma UpdateMeWritesOnlyNameAndEmail(u: User, body: map<string, string>)
    ensures var r := ProfileUpdated(u, Filtered(body, ["name", "email"]));
      && r.(name := u.name, email := u.email) == u
      && r.name == (if "name" in body then body["name"] else u.name)
      && r.email == (if "email" in body then body["email"] else u.email)
  {
  }

  /** `deleteMe`: the user is kept, only `active` becomes false; a 204 with
      no data. */
  method DeleteMe(store: UserStore, req: Request, res: Response) returns (next: Next)
    requires store.Valid() && req.user.Some?
    modifies store, res`reply
    ensures store.Valid()
    ensures var id := req.user.value.id;
      store.users == (if id in old(store.users) then old(store.users)[id := old(store.users)[id].(active := false)]
                      else old(store.users))
    ensures store.users.Keys == old(store.users).Keys
    ensures res.reply == Some(Reply(204, NoData)) && next == NotCalled
  {
    store.Deactivate(req.user.value.id);
    res.reply := Some(Reply(204, NoData));
    next := NotCalled;
  }

  /** `createUser`: always a 500 that points to `/signup`. */
  method CreateUser(res: Response)
    modifies res`reply
    ensures res.reply == Some(Reply(500, MessageBody("error", "This route not defined! Please use /signup instead.")))
  {
    res.reply := Some(Reply(500, MessageBody("error", "This route not defined! Please use /signup instead.")));
  }
}
