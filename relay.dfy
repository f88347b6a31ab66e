/**
 * The signed calls from the relay server (index.js) to the Google Apps Script backend:
 * `signPayload`, `gasGet` and `gasPost`. The HMAC-SHA256 hex digest, the clock, the
 * environment and `fetch` are parameters.
 */
module Relay {
  import opened JsRuntime

  /** HMAC-SHA256 as a lower-case hex digest: `mac(key, message)`. */
  type Mac = (string, string) -> string

  /** The `GAS_URL` environment variable, already parsed: its query parameters (the rest of
      the URL is carried through unchanged and is not modelled). */
  datatype GasUrl = GasUrl(query: map<string, string>)

  /** The two environment variables the calls read. */
  datatype Env = Env(gasUrl: Option<GasUrl>, secret: Option<string>)

  /** `process.env.GAS_SHARED_SECRET || ""` */
  function SigningKey(env: Env): (key: string)
    ensures env.secret.None? ==> key == ""
    ensures env.secret.Some? ==> key == env.secret.value
  {
    if env.secret.Some? && env.secret.value != "" then env.secret.value else ""
  }

  /** The signed text: `${action}.${ts}.${userId}`, where a missing `userId` is `""`. */
  function SignatureBase(action: Value, ts: int, userId: Value): (s: string)
    ensures |ToStr(action)| + 2 < |s| && s[..|ToStr(action)|] == ToStr(action) && s[|ToStr(action)|] == '.'
    ensures userId.Undefined? ==> s[|s| - 1] == '.'
  {
    ToStr(action) + "." + IntToString(ts) + "." + (if userId.Undefined? then "" else ToStr(userId))
  }

  /** `signPayload(action, ts, userId)` */
  function SignPayload(mac: Mac, env: Env, action: Value, ts: int, userId: Value): (sig: string)
    ensures env.secret.None? || env.secret == Some("") ==> sig == mac("", SignatureBase(action, ts, userId))
    ensures userId.Undefined? ==> sig == mac(SigningKey(env), SignatureBase(action, ts, Str("")))
  {
    mac(SigningKey(env), SignatureBase(action, ts, userId))
  }

  /** A missing `userId` is signed as the empty one, and an unset secret as the empty key. */
  lemma SignPayloadDefaults(mac: Mac, action: Value, ts: int, url: Option<GasUrl>)
    ensures forall e: Env :: SignPayload(mac, e, action, ts, Undefined) == SignPayload(mac, e, action, ts, Str(""))
    ensures SignPayload(mac, Env(url, None), action, ts, Undefined) == mac("", SignatureBase(action, ts, Str("")))
  {
  }

  /** `Math.floor(Date.now() / 1000)` */
  function UnixSeconds(nowMs: nat): (ts: nat)
    ensures ts * 1000 <= nowMs < ts * 1000 + 1000
  {
    nowMs / 1000
  }

  /** In `x + "." + y` with no dot in `x`, the first dot is the one after `x`. */
  lemma DotAfter(x: string, y: string)
    requires '.' !in x
    ensures (x + "." + y)[|x|] == '.'
    ensures forall i :: 0 <= i < |x| ==> (x + "." + y)[i] != '.'
  {
    assert forall i :: 0 <= i < |x| ==> (x + "." + y)[i] == x[i];
  }

  lemma SplitAtDot(x: string, y: string, x2: string, y2: string)
    requires '.' !in x && '.' !in x2
    requires x + "." + y == x2 + "." + y2
    ensures x == x2 && y == y2
  {
    var s := x + "." + y;
    DotAfter(x, y);
    DotAfter(x2, y2);
    assert |x| == |x2|;
    assert x == s[..|x|] == x2;
    assert y == s[|x| + 1..] == y2;
  }

  lemma SignatureBaseParts(a: string, t: nat, u: string)
    ensures SignatureBase(Str(a), t, Str(u)) == a + "." + (NatToString(t) + "." + u)
  {
  }

  /** For actions without a dot and non-negative timestamps, distinct requests have
      distinct signed texts. */
  lemma SignatureBaseInjective(a1: string, t1: nat, u1: string, a2: string, t2: nat, u2: string)
    requires '.' !in a1 && '.' !in a2
    requires SignatureBase(Str(a1), t1, Str(u1)) == SignatureBase(Str(a2), t2, Str(u2))
    ensures a1 == a2 && t1 == t2 && u1 == u2
  {
    var n1, n2 := NatToString(t1), NatToString(t2);
    SignatureBaseParts(a1, t1, u1);
    SignatureBaseParts(a2, t2, u2);
    SplitAtDot(a1, n1 + "." + u1, a2, n2 + "." + u2);
    assert '.' !in n1 && '.' !in n2 by {
      assert forall i :: 0 <= i < |n1| ==> IsDigit(n1[i]);
      assert forall i :: 0 <= i < |n2| ==> IsDigit(n2[i]);
    }
    SplitAtDot(n1, u1, n2, u2);
    NatToStringInjective(t1, t2);
  }

  /** With a dot in the action the signed text is ambiguous: two different requests share
      a signature. */
  lemma SignatureBaseCollision(mac: Mac, env: Env)
    ensures SignPayload(mac, env, Str("a.1"), 2, Str("x")) == SignPayload(mac, env, Str("a"), 1, Str("2.x"))
  {
    assert SignatureBase(Str("a.1"), 2, Str("x")) == "a.1.2.x";
    assert SignatureBase(Str("a"), 1, Str("2.x")) == "a.1.2.x";
  }

  /** The result of a call to the backend: the error message names the verb, the action
      and the status; an ok reply is the parsed body. */
  function Upstream(verb: string, action: Value, fetched: Fetched): (r: Result<Value>)
    ensures fetched.NetworkError? ==> r == Err(fetched.message)
    ensures fetched.Received? && !StatusOk(fetched.reply.status) ==>
      r == Err(verb + " " + ToStr(action) + " " + IntToString(fetched.reply.status))
    ensures fetched.Received? && StatusOk(fetched.reply.status) ==> r == fetched.reply.json
  {
    match fetched
    case NetworkError(m) => Err(m)
    case Received(reply) =>
      if !StatusOk(reply.status) then Err(verb + " " + ToStr(action) + " " + IntToString(reply.status))
      else reply.json
  }

  // ---------------------------------------------------------------------------
  // gasGet
  // ---------------------------------------------------------------------------

  /** `{ ...params, ts, sig }` */
  function Merged(params: map<string, Value>, ts: int, sig: string): map<string, Value> {
    params["ts" := Num(ts)]["sig" := Str(sig)]
  }

  /** The query `gasGet` requests: each entry whose value is neither `undefined` nor `null`
      is set as `String(v)`, overriding the URL's own; the URL's other parameters stay. */
  function SetEntries(base: map<string, string>, entries: map<string, Value>): (q: map<string, string>)
    ensures forall k :: k in q <==> k in base || (k in entries && !Nullish(entries[k]))
  {
    SetSome(base, entries, entries.Keys)
  }

  /** The query once the entries named in `done` have been visited. */
  function SetSome(base: map<string, string>, entries: map<string, Value>, done: set<string>): (q: map<string, string>)
    ensures forall k :: k in q <==> k in base || (k in entries && k in done && !Nullish(entries[k]))
  {
    map k | k in base.Keys + (entries.Keys * done) && (k in base || !Nullish(entries[k])) ::
      if k in entries && k in done && !Nullish(entries[k]) then ToStr(entries[k]) else base[k]
  }

  /** Before any entry is visited the query is the URL's own. */
  lemma SetSomeNone(base: map<string, string>, entries: map<string, Value>)
    ensures SetSome(base, entries, {}) == base
  {
  }

  /** Visiting one more entry sets it, unless it is nullish. */
  lemma SetSomeStep(base: map<string, string>, entries: map<string, Value>, done: set<string>, k: string)
    requires k in entries && k !in done
    ensures SetSome(base, entries, done + {k}) ==
      if Nullish(entries[k]) then SetSome(base, entries, done)
      else SetSome(base, entries, done)[k := ToStr(entries[k])]
  {
  }

  /** The `userId` `gasGet` and `gasPost` sign: `x.userId || ""`. */
  function SignedUserId(x: Value): Value {
    Or(Prop(x, "userId"), Str(""))
  }

  /** The `forEach` of `gasGet`: `url.searchParams.set(k, String(v))` for each entry whose
      value is neither `undefined` nor `null`. */
  method SetQuery(base: map<string, string>, entries: map<string, Value>) returns (q: map<string, string>)
    ensures q == SetEntries(base, entries)
  {
    q := base;
    var pending, done := entries.Keys, {};
    SetSomeNone(base, entries);
    while pending != {}
      invariant pending + done == entries.Keys && pending !! done
      invariant q == SetSome(base, entries, done)
      decreases pending
    {
      var k :| k in pending;
      SetSomeStep(base, entries, done, k);
      if !Nullish(entries[k]) {
        q := q[k := ToStr(entries[k])];
      }
      pending, done := pending - {k}, done + {k};
    }
  }

  /** `gasGet(params)`, returning the query it requested (none when `GAS_URL` is unset and
      `new URL` throws) and what its promise settles to. */
  method GasGet(mac: Mac, env: Env, nowMs: nat, params: map<string, Value>, fetched: Fetched)
    returns (query: Option<map<string, string>>, result: Result<Value>)
    ensures env.gasUrl.None? ==> query.None? && result == Err(TypeErrorMessage)
    ensures env.gasUrl.Some? ==>
      var ts := UnixSeconds(nowMs);
      var sig := SignPayload(mac, env, Prop(Obj(params), "action"), ts, SignedUserId(Obj(params)));
      && query == Some(SetEntries(env.gasUrl.value.query, Merged(params, ts, sig)))
      && result == Upstream("GAS GET", Prop(Obj(params), "action"), fetched)
  {
    var ts := UnixSeconds(nowMs);
    var action := Prop(Obj(params), "action");
    var sig := SignPayload(mac, env, action, ts, SignedUserId(Obj(params)));
    if env.gasUrl.None? {
      return None, Err(TypeErrorMessage);
    }
    var base := env.gasUrl.value.query;
    var entries := Merged(params, ts, sig);
    var q := SetQuery(base, entries);
    query := Some(q);
    result := Upstream("GAS GET", action, fetched);
  }

  /** Whatever `params` holds, the request carries the timestamp in seconds and the
      signature under their own names. */
  lemma GetQueryStamps(base: map<string, string>, params: map<string, Value>, ts: nat, sig: string)
    ensures var q := SetEntries(base, Merged(params, ts, sig));
      && "ts" in q && q["ts"] == NatToString(ts)
      && "sig" in q && q["sig"] == sig
  {
    var e := Merged(params, ts, sig);
    assert "ts" in e && e["ts"] == Num(ts) && "sig" in e && e["sig"] == Str(sig);
  }

  /** What `gasGet` requests for `params`: every non-nullish parameter as `String(v)`, and a
      nullish one leaves the URL's own value of that name in place. */
  lemma GetQueryEntries(base: map<string, string>, params: map<string, Value>, ts: int, sig: string, k: string)
    requires k != "ts" && k != "sig" && k in params
    ensures var q := SetEntries(base, Merged(params, ts, sig));
      && (!Nullish(params[k]) ==> k in q && q[k] == ToStr(params[k]))
      && (Nullish(params[k]) ==> (k in q <==> k in base) && (k in base ==> q[k] == base[k]))
  {
  }

  /** `gasGet` signs `params.userId || ""` but sends `String(params.userId)`: for a falsy
      user id that is not nullish, such as the number 0, the two differ. */
  lemma GetSignsOtherUserId(base: map<string, string>, ts: int, sig: string)
    ensures var params := map["action" := Str("orders"), "userId" := Num(0)];
      && ToStr(SignedUserId(Obj(params))) == ""
      && SetEntries(base, Merged(params, ts, sig))["userId"] == "0"
  {
    var params := map["action" := Str("orders"), "userId" := Num(0)];
    assert "userId" in Merged(params, ts, sig);
  }

  // ---------------------------------------------------------------------------
  // gasPost
  // ---------------------------------------------------------------------------

  /** The query `gasPost` requests: the URL's own with `ts` and `sig` set, and `userId` only
      when the body has a truthy one. */
  function PostQuery(base: map<string, string>, ts: int, sig: string, body: Value): (q: map<string, string>)
    ensures "ts" in q && q["ts"] == IntToString(ts) && "sig" in q && q["sig"] == sig
    ensures Truthy(Prop(body, "userId")) ==> "userId" in q && q["userId"] == ToStr(Prop(body, "userId"))
    ensures !Truthy(Prop(body, "userId")) ==> ("userId" in q <==> "userId" in base)
    ensures forall k :: k != "ts" && k != "sig" && k != "userId" ==> (k in q <==> k in base) && (k in q ==> q[k] == base[k])
  {
    var q := base["ts" := IntToString(ts)]["sig" := sig];
    if Truthy(Prop(body, "userId")) then q["userId" := ToStr(Prop(body, "userId"))] else q
  }

  /** `gasPost(body)`, returning the query and body it posted (none when it threw first)
      and what its promise settles to. Reading `body.action` of a nullish body throws. */
  method GasPost(mac: Mac, env: Env, nowMs: nat, body: Value, fetched: Fetched)
    returns (query: Option<map<string, string>>, sent: Option<Value>, result: Result<Value>)
    ensures Nullish(body) || env.gasUrl.None? ==> query.None? && sent.None? && result == Err(TypeErrorMessage)
    ensures !Nullish(body) && env.gasUrl.Some? ==>
      var ts := UnixSeconds(nowMs);
      var sig := SignPayload(mac, env, Prop(body, "action"), ts, SignedUserId(body));
      && query == Some(PostQuery(env.gasUrl.value.query, ts, sig, body))
      && sent == Some(body)
      && result == Upstream("GAS POST", Prop(body, "action"), fetched)
  {
    var ts := UnixSeconds(nowMs);
    var action := Get(body, "action");
    if action.Err? {
      return None, None, Err(action.message);
    }
    var sig := SignPayload(mac, env, action.value, ts, SignedUserId(body));
    if env.gasUrl.None? {
      return None, None, Err(TypeErrorMessage);
    }
    var q := env.gasUrl.value.query;
    q := q["ts" := IntToString(ts)];
    q := q["sig" := sig];
    if Truthy(Prop(body, "userId")) {
      q := q["userId" := ToStr(Prop(body, "userId"))];
    }
    query := Some(q);
    sent := Some(body);
    result := Upstream("GAS POST", action.value, fetched);
  }

  /** `gasPost` signs exactly the `userId` it sends, and `""` when it sends none of its
      own; the action is signed but travels only in the body. */
  lemma PostSignsWhatItSends(base: map<string, string>, ts: int, sig: string, body: Value)
    requires "userId" !in base
    ensures var q := PostQuery(base, ts, sig, body);
      && ("userId" in q ==> q["userId"] == ToStr(SignedUserId(body)))
      && ("userId" !in q ==> ToStr(SignedUserId(body)) == "")
      && ("action" in q <==> "action" in base)
  {
  }
}
