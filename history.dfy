/**
 * The history endpoints of the Django test app: `save_session` appends one
 * result to the list kept in the visitor's session and keeps only the last
 * ten; `get_history` reads the list back.
 */
module History {
  import opened Common

  /** A value as `json.loads` returns it. */
  datatype Json = JNull | JBool(b: bool) | JNum(n: real) | JStr(s: string) | JArr(items: seq<Json>)
                | JObj(fields: map<string, Json>)

  /** One stored result: exactly the keys score, duration and timestamp. */
  datatype Entry = Entry(score: Json, duration: Json, timestamp: Json)

  /** How many results the session keeps. */
  const HistoryLimit: nat := 10

  /** A request: its method, and its body parsed as JSON, or `None` when it does not parse. */
  datatype Request = Request(httpMethod: string, body: Option<Json>)

  datatype ErrorReason = InvalidMethod | BadBody
  /** The `status` of the JSON response, with the reason of an error. */
  datatype Status = Success | Failure(reason: ErrorReason)

  /** `data.get(key)`: a missing key reads as `None`, stored as JSON null. */
  function Get(fields: map<string, Json>, key: string): (v: Json)
    ensures key in fields ==> v == fields[key]
    ensures key !in fields ==> v == JNull
  {
    if key in fields then fields[key] else JNull
  }

  function EntryOf(fields: map<string, Json>): Entry
  {
    Entry(Get(fields, "score"), Get(fields, "duration"), Get(fields, "timestamp"))
  }

  /** `s[-n:]` for a positive `n`: the last `n` items, or all of them when there are fewer. */
  function LastN(s: seq<Entry>, n: nat): (r: seq<Entry>)
    requires n > 0
    ensures |r| == if |s| < n then |s| else n
    ensures r == s[|s| - |r|..]
  {
    if |s| <= n then s else s[|s| - n..]
  }

  /** The list `request.session.get('speech_history', [])` returns. */
  function Stored(history: Option<seq<Entry>>): seq<Entry>
  {
    if history.Some? then history.value else []
  }

  /** Is this request a POST whose body parsed to a JSON object (the only body `data.get` works on)? */
  predicate Accepted(req: Request)
  {
    req.httpMethod == "POST" && req.body.Some? && req.body.value.JObj?
  }

  /**
   * After a save the new entry is last, the list holds min(10, old + 1)
   * entries, and they are the newest ones in their original order.
   */
  lemma AppendKeepsNewest(before: seq<Entry>, e: Entry)
    ensures var r := LastN(before + [e], HistoryLimit);
      |r| == (if |before| + 1 < HistoryLimit then |before| + 1 else HistoryLimit)
      && r[|r| - 1] == e
      && r[..|r| - 1] == before[|before| + 1 - |r|..]
  {
    var s := before + [e];
    var r := LastN(s, HistoryLimit);
    assert r == s[|s| - |r|..];
    assert r[..|r| - 1] == s[|s| - |r|..|s| - 1];
    assert s[..|s| - 1] == before;
  }

  /** Below the limit nothing is dropped. */
  lemma ShortHistoryKeepsAll(before: seq<Entry>, e: Entry)
    requires |before| < HistoryLimit
    ensures LastN(before + [e], HistoryLimit) == before + [e]
  {
  }

  /** An object without the three keys is stored as three nulls; extra keys are dropped. */
  lemma MissingKeysAreNull(fields: map<string, Json>)
    requires "score" !in fields && "duration" !in fields && "timestamp" !in fields
    ensures EntryOf(fields) == Entry(JNull, JNull, JNull)
  {
  }

  /** The visitor's session, as far as these two views use it. */
  class SessionStore {
    /** `request.session['speech_history']`, `None` while the key is absent. */
    var history: Option<seq<Entry>>

    constructor ()
      ensures history.None?
    {
      history := None;
    }

    /** `get_history`: the stored list, or the empty list when there is none. */
    method GetHistory() returns (h: seq<Entry>)
      ensures h == Stored(history)
      ensures history.None? ==> h == []
    {
      if history.Some? {
        h := history.value;
      } else {
        h := [];
      }
    }

    /**
     * `save_session`: a POST with a JSON object appends its entry and keeps
     * the last ten; any other method, and a body that does not parse or is
     * not an object, leave the history alone and report an error.
     */
    method SaveSession(req: Request) returns (status: Status)
      modifies this
      ensures status == Success <==> Accepted(req)
      ensures req.httpMethod != "POST" ==> status == Failure(InvalidMethod)
      ensures req.httpMethod == "POST" && !Accepted(req) ==> status == Failure(BadBody)
      ensures !Accepted(req) ==> history == old(history)
      ensures Accepted(req) ==> |Stored(history)| <= HistoryLimit
      ensures Accepted(req) ==>
        history == Some(LastN(Stored(old(history)) + [EntryOf(req.body.value.fields)], HistoryLimit))
    {
      if req.httpMethod != "POST" {
        return Failure(InvalidMethod);
      }
      if req.body.None? || !req.body.value.JObj? {
        return Failure(BadBody);
      }
      var list := Stored(history);
      list := list + [EntryOf(req.body.value.fields)];
      history := Some(LastN(list, HistoryLimit));
      status := Success;
    }
  }
}
