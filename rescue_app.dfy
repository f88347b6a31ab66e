/**
 * The component state of client/App.jsx: the signed-in user, whether that user is an
 * administrator, and the category list with its loading and error flags. Each handler is
 * a method that updates the fields the way its `setX` calls do; the replies of the
 * requests it awaits are parameters.
 */
module RescueApp {
  import opened JsRuntime
  import opened ClientApi

  /** The `alert` a rescue registration ends with. */
  datatype Notice =
    | Registered            // registration went through and the recheck says administrator
    | NotReflected          // registration went through but the recheck does not say so
    | Failed(reason: string) // registration refused: `r.error || 'unknown'`

  /** What `handleRescueRegister` ends with: the new `admin` flag, if it set one, and the
      alert it shows, if any (a handler that throws shows none). */
  datatype RescueOutcome = RescueOutcome(admin: Option<bool>, notice: Option<Notice>)

  /** `!!r.isAdmin` when `r` can be read, and nothing when the await rejected or `r` is
      nullish (those throw before `setAdmin`). */
  function AdminVerdict(r: Result<Value>): (v: Option<bool>)
    ensures v.Some? <==> r.Ok? && !Nullish(r.value)
    ensures v == Some(true) ==> Truthy(Prop(r.value, "isAdmin"))
    ensures v == Some(false) ==> !Truthy(Prop(r.value, "isAdmin"))
  {
    if r.Ok? && !Nullish(r.value) then Some(Truthy(Prop(r.value, "isAdmin"))) else None
  }

  /** `r && r.ok` on the parsed registration reply. */
  predicate RegistrationAccepted(r: Result<Value>) {
    r.Ok? && Truthy(r.value) && Truthy(Prop(r.value, "ok"))
  }

  /** The outcome of `handleRescueRegister`, given the two replies it may await. */
  function Rescue(user: Option<User>, registered: Fetched, checked: Fetched): (o: RescueOutcome)
    ensures user.None? ==> o == RescueOutcome(None, None)
    ensures o.admin.Some? ==> user.Some? && RegistrationAccepted(RegisterAdmin(registered))
    ensures o.admin.Some? <==> user.Some? && RegistrationAccepted(RegisterAdmin(registered)) &&
                               AdminVerdict(IsAdmin(checked)).Some?
    ensures o.notice == Some(Registered) <==> o.admin == Some(true)
    ensures o.notice == Some(NotReflected) <==> o.admin == Some(false)
    ensures o.admin.Some? ==> o.admin == AdminVerdict(IsAdmin(checked))
    ensures o.admin == Some(true) ==> checked.Received? && StatusOk(checked.reply.status)
  {
    if user.None? then RescueOutcome(None, None)
    else
      var reg := RegisterAdmin(registered);
      if reg.Err? then RescueOutcome(None, None)
      else if RegistrationAccepted(reg) then
        var verdict := AdminVerdict(IsAdmin(checked));
        if verdict.None? then RescueOutcome(None, None)
        else RescueOutcome(verdict, Some(if verdict.value then Registered else NotReflected))
      else if Nullish(reg.value) then RescueOutcome(None, None)
      else RescueOutcome(None, Some(Failed(ToStr(Or(Prop(reg.value, "error"), Str("unknown"))))))
  }

  /** The registration reply's HTTP status plays no part: only its parsed body does. */
  lemma RescueIgnoresRegistrationStatus(user: Option<User>, s1: int, s2: int, t1: string, t2: string,
                                        body: Result<Value>, checked: Fetched)
    ensures Rescue(user, Received(Reply(s1, t1, body)), checked) ==
            Rescue(user, Received(Reply(s2, t2, body)), checked)
  {
  }

  /** The re-check is issued only after an accepted registration: once the registration is
      refused, whatever `isAdmin` would have answered plays no part. */
  lemma RescueRefusedIgnoresCheck(user: Option<User>, registered: Fetched, c1: Fetched, c2: Fetched)
    requires !RegistrationAccepted(RegisterAdmin(registered))
    ensures Rescue(user, registered, c1) == Rescue(user, registered, c2)
  {
  }

  /** The new `admin` flag comes from the re-check alone: two accepted registrations with
      different bodies (one claiming `isAdmin`, say) lead to the same outcome. */
  lemma RescueFlagFromCheckOnly(user: Option<User>, r1: Fetched, r2: Fetched, checked: Fetched)
    requires RegistrationAccepted(RegisterAdmin(r1)) && RegistrationAccepted(RegisterAdmin(r2))
    ensures Rescue(user, r1, checked) == Rescue(user, r2, checked)
  {
  }

  /** A refused registration (a body without a truthy `ok`, `{ok: false, error}` included)
      leaves `admin` alone and shows the server's reason, and `unknown` when it gives none. */
  lemma RescueRefused(u: User, status: int, text: string, body: map<string, Value>, checked: Fetched)
    requires !("ok" in body && Truthy(body["ok"]))
    ensures var o := Rescue(Some(u), Received(Reply(status, text, Ok(Obj(body)))), checked);
      && o.admin == None
      && (("error" !in body || !Truthy(body["error"])) ==> o.notice == Some(Failed("unknown")))
      && ("error" in body && Truthy(body["error"]) ==> o.notice == Some(Failed(ToStr(body["error"]))))
  {
  }

  /** The message the category list shows: `e.message || 'failed'`. */
  function ErrorText(message: string): (t: string)
    ensures t != ""
    ensures message != "" ==> t == message
  {
    if message == "" then "failed" else message
  }

  class App {
    var user: Option<User>
    var admin: bool
    var cats: seq<CategoryEntry>
    var loadingCats: bool
    var catsError: string

    /** The initial `useState` values. */
    constructor ()
      ensures user == None && !admin && cats == [] && loadingCats && catsError == ""
      ensures !NeedAdminRescue()
    {
      user := None;
      admin := false;
      cats := [];
      loadingCats := true;
      catsError := "";
    }

    /** `needAdminRescue`: a signed-in user who is not (yet) an administrator. */
    predicate NeedAdminRescue()
      reads this
      ensures NeedAdminRescue() ==> user.Some?
      ensures admin ==> !NeedAdminRescue()
    {
      user.Some? && !admin
    }

    /** The mount effect: record the profile, then ask whether it is an administrator. A
        failed check leaves `admin` as it was. */
    method Init(profile: User, checked: Fetched)
      modifies this
      ensures user == Some(profile)
      ensures var v := AdminVerdict(IsAdmin(checked)); admin == (if v.Some? then v.value else old(admin))
      ensures cats == old(cats) && loadingCats == old(loadingCats) && catsError == old(catsError)
      ensures NeedAdminRescue() <==> !admin
    {
      user := Some(User(profile.userId, profile.displayName));
      var r := IsAdmin(checked);
      if r.Ok? && !Nullish(r.value) {
        admin := Truthy(Prop(r.value, "isAdmin"));
      }
    }

    /** The start of `loadCategories()`, up to its `await`: loading, with no error shown. */
    method StartLoadCategories()
      modifies this
      ensures loadingCats && catsError == ""
      ensures user == old(user) && admin == old(admin) && cats == old(cats)
    {
      loadingCats := true;
      catsError := "";
    }

    /** The rest of `loadCategories()`: replace the list on success, report the error
        otherwise, and finish with the loading flag down. */
    method FinishLoadCategories(fetched: Fetched)
      modifies this
      ensures var r := FetchCategories(fetched);
        && cats == (if r.Ok? then r.value else old(cats))
        && catsError == (if r.Ok? then old(catsError) else ErrorText(r.message))
      ensures !loadingCats
      ensures user == old(user) && admin == old(admin)
    {
      var list := FetchCategories(fetched);
      if list.Ok? {
        cats := list.value;
      } else {
        catsError := ErrorText(list.message);
      }
      loadingCats := false;
    }

    /** `loadCategories()` as a whole: an error is shown exactly when the fetch failed. */
    method LoadCategories(fetched: Fetched)
      modifies this
      ensures var r := FetchCategories(fetched);
        && cats == (if r.Ok? then r.value else old(cats))
        && catsError == (if r.Ok? then "" else ErrorText(r.message))
      ensures !loadingCats
      ensures user == old(user) && admin == old(admin)
      ensures catsError == "" <==> FetchCategories(fetched).Ok?
    {
      StartLoadCategories();
      FinishLoadCategories(fetched);
    }

    /** `handleRescueRegister()`, returning the alert it shows. */
    method HandleRescueRegister(registered: Fetched, checked: Fetched) returns (notice: Option<Notice>)
      modifies this
      ensures var o := Rescue(old(user), registered, checked);
        && notice == o.notice
        && admin == (if o.admin.Some? then o.admin.value else old(admin))
      ensures notice == Some(Registered) ==> !NeedAdminRescue()
      ensures notice == Some(NotReflected) ==> NeedAdminRescue()
      ensures user == old(user) && cats == old(cats) && loadingCats == old(loadingCats) && catsError == old(catsError)
    {
      notice := None;
      if user.None? {
        return;
      }
      var u := user.value;
      var r := RegisterAdmin(registered);
      if r.Err? {
        return;
      }
      if Truthy(r.value) && Truthy(Prop(r.value, "ok")) {
        var chk := IsAdmin(checked);
        if chk.Err? || Nullish(chk.value) {
          return;
        }
        admin := Truthy(Prop(chk.value, "isAdmin"));
        notice := Some(if admin then Registered else NotReflected);
      } else {
        if Nullish(r.value) {
          return;
        }
        notice := Some(Failed(ToStr(Or(Prop(r.value, "error"), Str("unknown")))));
      }
    }
  }

  /** Why the rescue is offered to a fresh page: an `is-admin` reply with an error status
      sets `admin` to false, and a failed request leaves it at its initial false. */
  lemma FailedCheckOffersRescue(checked: Fetched)
    requires checked.NetworkError? || !StatusOk(checked.reply.status)
    ensures AdminVerdict(IsAdmin(checked)) != Some(true)
    ensures checked.Received? ==> AdminVerdict(IsAdmin(checked)) == Some(false)
  {
  }
}
