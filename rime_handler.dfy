/**
 * The backend's bridge to the composition engine: a lazily created session,
 * and the key-event reply dictionary, in which each part appears only when
 * the engine has something to say for it.
 *
 * The engine session itself is an oracle: what one key press makes it answer
 * is a Snapshot (or an exception), and creating the session is a sequence of
 * steps that may each fail.
 */
module RimeHandler {
  import opened Wrappers
  import opened Json

  datatype RimeCandidate = RimeCandidate(text: string, comment: Option<string>)

  datatype Menu = Menu(candidates: seq<RimeCandidate>, highlighted: int, pageSize: int)

  datatype Composition = Composition(preedit: Option<string>, cursorPos: int)

  datatype RimeContext = RimeContext(composition: Composition, menu: Menu)

  /** What the session reports after one key: handled or not, the commit text if any, and the context if any. */
  datatype Snapshot = Snapshot(handled: bool, commit: Option<string>, context: Option<RimeContext>)

  /** A key press either gets answers from every session query, or one of them raises. */
  datatype RimeAnswer = Answered(snapshot: Snapshot) | Raised

  /** How the steps of session creation go: directories, the shared data lookup, the session, schema selection. */
  datatype InitEnv = InitEnv(dirsOk: bool, sharedDataFound: bool, sessionOk: bool, schemaOk: bool)

  /** The calls made on the session, in order. */
  datatype SessionCall = ProcessKeyCall(keyval: JValue, mask: JValue) | ClearCompositionCall

  /** The reply when the engine cannot help. */
  const Unhandled: JValue := JObj([("handled", JBool(false))])

  // ---------------------------------------------------------------------------
  // The reply dictionary.
  // ---------------------------------------------------------------------------

  function CommitText(s: Snapshot): string {
    s.commit.GetOr("")
  }

  function PreeditText(s: Snapshot): string {
    if s.context.None? then "" else s.context.value.composition.preedit.GetOr("")
  }

  function MenuCandidates(s: Snapshot): seq<RimeCandidate> {
    if s.context.None? then [] else s.context.value.menu.candidates
  }

  function CandidateObject(c: RimeCandidate): JValue {
    JObj([("text", JStr(c.text)), ("comment", JStr(c.comment.GetOr("")))])
  }

  function CandidateObjects(cs: seq<RimeCandidate>): (r: seq<JValue>)
    ensures |r| == |cs| && forall k :: 0 <= k < |cs| ==> r[k] == CandidateObject(cs[k])
  {
    seq(|cs|, k requires 0 <= k < |cs| => CandidateObject(cs[k]))
  }

  function CommitPart(s: Snapshot): seq<(string, JValue)> {
    if CommitText(s) != "" then [("commit", JStr(CommitText(s)))] else []
  }

  function PreeditPart(c: RimeContext): seq<(string, JValue)> {
    var text := c.composition.preedit.GetOr("");
    if text != "" then [("preedit", JObj([("text", JStr(text)), ("cursor_pos", JInt(c.composition.cursorPos))]))]
    else []
  }

  function MenuPart(m: Menu): seq<(string, JValue)> {
    if m.candidates != [] then
      [("candidates", JArr(CandidateObjects(m.candidates))),
       ("highlighted_index", JInt(m.highlighted)),
       ("page_size", JInt(m.pageSize))]
    else []
  }

  function ContextPart(s: Snapshot): seq<(string, JValue)> {
    if s.context.None? then [] else PreeditPart(s.context.value) + MenuPart(s.context.value.menu)
  }

  function CursorPos(s: Snapshot): int {
    if s.context.None? then 0 else s.context.value.composition.cursorPos
  }

  function Highlighted(s: Snapshot): int {
    if s.context.None? then 0 else s.context.value.menu.highlighted
  }

  function PageSize(s: Snapshot): int {
    if s.context.None? then 0 else s.context.value.menu.pageSize
  }

  /** The value one key of the reply has, if any: each part is present only when non-empty. */
  function Expected(s: Snapshot, key: string): Option<JValue> {
    var menu := MenuCandidates(s) != [];
    if key == "handled" then Some(JBool(s.handled))
    else if key == "commit" then (if CommitText(s) != "" then Some(JStr(CommitText(s))) else None)
    else if key == "preedit" then
      (if PreeditText(s) != "" then Some(JObj([("text", JStr(PreeditText(s))), ("cursor_pos", JInt(CursorPos(s)))])) else None)
    else if key == "candidates" then (if menu then Some(JArr(CandidateObjects(MenuCandidates(s)))) else None)
    else if key == "highlighted_index" then (if menu then Some(JInt(Highlighted(s))) else None)
    else if key == "page_size" then (if menu then Some(JInt(PageSize(s))) else None)
    else None
  }

  /**
   * process_key's result for a session that answered: `handled` always, then
   * `commit`, `preedit` and the candidate group, each only when non-empty.
   */
  function KeyResult(s: Snapshot): (r: JValue)
    ensures r.JObj?
    ensures Keys(r.fields) <= {"handled", "commit", "preedit", "candidates", "highlighted_index", "page_size"}
    ensures forall key :: Field(r, key) == Expected(s, key)
  {
    var head := [("handled", JBool(s.handled))];
    var fields := head + CommitPart(s) + ContextPart(s);
    KeyResultLookups(s, head, fields);
    JObj(fields)
  }

  lemma KeyResultLookups(s: Snapshot, head: seq<(string, JValue)>, fields: seq<(string, JValue)>)
    requires head == [("handled", JBool(s.handled))]
    requires fields == head + CommitPart(s) + ContextPart(s)
    ensures Keys(fields) <= {"handled", "commit", "preedit", "candidates", "highlighted_index", "page_size"}
    ensures forall key :: Lookup(fields, key) == Expected(s, key)
  {
    var cp, xp := CommitPart(s), ContextPart(s);
    KeysAppend(head + cp, xp);
    KeysAppend(head, cp);
    forall key
      ensures Lookup(fields, key) == Expected(s, key)
    {
      ContextPartLookups(s, key);
      Lookup3(head, cp, xp, key);
    }
  }

  lemma ContextPartLookups(s: Snapshot, key: string)
    ensures Keys(ContextPart(s)) <= {"preedit", "candidates", "highlighted_index", "page_size"}
    ensures Lookup(ContextPart(s), key) == if key in {"handled", "commit"} then None else Expected(s, key)
  {
    if s.context.Some? {
      var c := s.context.value;
      var pp, mp := PreeditPart(c), MenuPart(c.menu);
      PreeditPartFacts(c, key);
      MenuPartFacts(c.menu, key);
      KeysAppend(pp, mp);
      LookupAppend(pp, mp, key);
    }
  }

  lemma PreeditPartFacts(c: RimeContext, key: string)
    ensures Keys(PreeditPart(c)) <= {"preedit"}
    ensures Lookup(PreeditPart(c), key) ==
              if key == "preedit" then Expected(Snapshot(false, None, Some(c)), key) else None
  {
  }

  lemma MenuPartFacts(m: Menu, key: string)
    ensures Keys(MenuPart(m)) <= {"candidates", "highlighted_index", "page_size"}
    ensures Lookup(MenuPart(m), key) ==
              if key in {"candidates", "highlighted_index", "page_size"}
              then Expected(Snapshot(false, None, Some(RimeContext(Composition(None, 0), m))), key)
              else None
  {
    if m.candidates != [] {
      var mp := MenuPart(m);
      assert mp[..2][..1] == mp[..1];
      assert Lookup(mp, key) == if key == "page_size" then Some(mp[2].1) else Lookup(mp[..2], key);
      assert Lookup(mp[..2], key) == if key == "highlighted_index" then Some(mp[1].1) else Lookup(mp[..1], key);
    }
  }

  lemma KeysAppend(a: seq<(string, JValue)>, b: seq<(string, JValue)>)
    ensures Keys(a + b) == Keys(a) + Keys(b)
  {
    forall key | key in Keys(a + b)
      ensures key in Keys(a) + Keys(b)
    {
      var k :| 0 <= k < |a + b| && (a + b)[k].0 == key;
      if k >= |a| {
        assert (a + b)[k] == b[k - |a|];
      }
    }
    forall key | key in Keys(a) + Keys(b)
      ensures key in Keys(a + b)
    {
      if key in Keys(a) {
        var k :| 0 <= k < |a| && a[k].0 == key;
        assert (a + b)[k] == a[k];
      } else {
        var k :| 0 <= k < |b| && b[k].0 == key;
        assert (a + b)[|a| + k] == b[k];
      }
    }
  }

  lemma Lookup3(a: seq<(string, JValue)>, b: seq<(string, JValue)>, c: seq<(string, JValue)>, key: string)
    ensures Lookup(a + b + c, key) == if Lookup(c, key).Some? then Lookup(c, key)
                                      else if Lookup(b, key).Some? then Lookup(b, key) else Lookup(a, key)
  {
    LookupAppend(a + b, c, key);
    LookupAppend(a, b, key);
  }

  // ---------------------------------------------------------------------------
  // The handler.
  // ---------------------------------------------------------------------------

  /**
   * initialize: an existing session answers true with no side effect; an
   * unavailable engine answers false; otherwise creation runs, failing with no
   * session when a step up to the session's construction fails. A failure in
   * schema selection comes after the session is stored, so the answer is false
   * while the session stays.
   */
  function InitOutcome(hasSession: bool, available: bool, env: InitEnv): (r: (bool, bool))
    ensures hasSession ==> r == (true, true)
    ensures !hasSession && !available ==> r == (false, false)
    ensures r.0 ==> r.1
    ensures r.1 ==> hasSession || available
    ensures !hasSession && available && !(env.dirsOk && env.sharedDataFound && env.sessionOk) ==> r == (false, false)
    ensures !hasSession && available && env.dirsOk && env.sharedDataFound && env.sessionOk ==> r == (env.schemaOk, true)
  {
    if hasSession then (true, true)
    else if !available then (false, false)
    else if !env.dirsOk || !env.sharedDataFound || !env.sessionOk then (false, false)
    else if !env.schemaOk then (false, true)
    else (true, true)
  }

  /** process_key: exactly `{"handled": False}` unless the engine is there, initialised, and answers. */
  function ProcessKeyReply(available: bool, hasSession: bool, env: InitEnv, answer: RimeAnswer): (r: JValue)
    ensures !available ==> r == Unhandled
    ensures available && !InitOutcome(hasSession, available, env).0 ==> r == Unhandled
    ensures answer.Raised? ==> r == Unhandled
    ensures available && InitOutcome(hasSession, available, env).0 && answer.Answered?
            ==> r == KeyResult(answer.snapshot)
  {
    if !available then Unhandled
    else if !InitOutcome(hasSession, available, env).0 then Unhandled
    else match answer
      case Raised => Unhandled
      case Answered(s) => KeyResult(s)
  }

  class Handler {
    /** Whether the engine's bindings could be imported. */
    const available: bool
    var hasSession: bool
    var calls: seq<SessionCall>

    ghost predicate Valid()
      reads this
    {
      hasSession ==> available
    }

    constructor (available: bool)
      ensures Valid() && this.available == available && !hasSession && calls == []
    {
      this.available := available;
      hasSession := false;
      calls := [];
    }

    method Initialize(env: InitEnv) returns (ok: bool)
      requires Valid()
      modifies this
      ensures Valid() && calls == old(calls)
      ensures (ok, hasSession) == InitOutcome(old(hasSession), available, env)
    {
      if hasSession {
        return true;
      }
      if !available {
        return false;
      }
      // The lock is taken here and the session checked again; one thread runs this at a time.
      if !env.dirsOk || !env.sharedDataFound || !env.sessionOk {
        return false;
      }
      hasSession := true;
      if !env.schemaOk {
        return false;
      }
      ok := true;
    }

    method ProcessKey(keyval: JValue, mask: JValue, env: InitEnv, answer: RimeAnswer) returns (result: JValue)
      requires Valid()
      modifies this
      ensures Valid()
      ensures result == ProcessKeyReply(available, old(hasSession), env, answer)
      ensures hasSession == if available then InitOutcome(old(hasSession), available, env).1 else old(hasSession)
      ensures calls == old(calls) + (if available && InitOutcome(old(hasSession), available, env).0
                                     then [ProcessKeyCall(keyval, mask)] else [])
    {
      if !available {
        return Unhandled;
      }
      var ok := Initialize(env);
      if !ok {
        return Unhandled;
      }
      calls := calls + [ProcessKeyCall(keyval, mask)];
      match answer {
        case Raised =>
          result := Unhandled;
        case Answered(s) =>
          result := KeyResult(s);
      }
    }

    /** reset: clears the composition of an existing session only; a failure there is swallowed. */
    method Reset()
      requires Valid()
      modifies this
      ensures Valid() && hasSession == old(hasSession)
      ensures calls == old(calls) + (if hasSession then [ClearCompositionCall] else [])
    {
      if hasSession {
        calls := calls + [ClearCompositionCall];
      }
    }

    /** cleanup: drops the session. */
    method Cleanup()
      requires Valid()
      modifies this
      ensures Valid() && !hasSession && calls == old(calls)
    {
      hasSession := false;
    }
  }

  /** Once a session exists, initialisation always succeeds and touches nothing. */
  lemma InitializeIsIdempotent(available: bool, env1: InitEnv, env2: InitEnv)
    requires InitOutcome(false, available, env1).1
    ensures InitOutcome(InitOutcome(false, available, env1).1, available, env2) == (true, true)
  {
  }
}
