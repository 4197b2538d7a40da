/**
 The conversation graph of a project chat (app/memory/service.py:60-268): turns are indexed one by one as they are saved,
 or all at once when the session is attached to a project. Turns are numbered in the order of their timestamps.
 */
module ChatGraph {
  import opened Wrappers

  datatype Role = User | Assistant | Other

  datatype Turn = Turn(role: Role, run: Option<string>)

  datatype Author = ByUser | ByAssistant | BySystem

  // The workspace object of a turn: who made it and the run it is labelled with.
  datatype Object = Object(author: Author, run: Option<string>)

  datatype Edge = Reply(user: nat, assistant: nat) | Continues(previous: nat, next: nat)

  datatype Chat = Chat(turns: seq<Turn>, attached: bool, objects: map<nat, Object>, edges: set<Edge>)

  predicate Carries(run: Option<string>) {
    run.Some? && run.value != ""
  }

  predicate Replied(edges: set<Edge>, u: nat) {
    exists e | e in edges :: e.Reply? && e.user == u
  }

  /// Saving one turn.

  // Live indexing knows only assistants and users.
  function LiveObject(t: Turn): Object {
    Object(if t.role.Assistant? then ByAssistant else ByUser, t.run)
  }

  function PriorAssistant(objects: map<nat, Object>, n: nat): (r: Option<nat>)
    ensures r.Some? ==> r.value < n && r.value in objects && objects[r.value].author.ByAssistant?
    ensures forall i | (if r.Some? then r.value < i else 0 <= i) && i < n && i in objects :: !objects[i].author.ByAssistant?
  {
    if n == 0 then None
    else if n - 1 in objects && objects[n - 1].author.ByAssistant? then Some(n - 1)
    else PriorAssistant(objects, n - 1)
  }

  predicate Answerable(objects: map<nat, Object>, edges: set<Edge>, run: Option<string>, u: nat) {
    u in objects && objects[u].author.ByUser? && (Carries(run) ==> objects[u].run == run) && !Replied(edges, u)
  }

  /** The user turn a new answer replies to: the newest one of its run that has no reply yet. */
  function Answers(objects: map<nat, Object>, edges: set<Edge>, run: Option<string>, n: nat): (r: Option<nat>)
    ensures r.Some? ==> r.value < n && Answerable(objects, edges, run, r.value)
    ensures forall u | (if r.Some? then r.value < u else 0 <= u) && u < n :: !Answerable(objects, edges, run, u)
  {
    if n == 0 then None
    else if Answerable(objects, edges, run, n - 1) then Some(n - 1)
    else Answers(objects, edges, run, n - 1)
  }

  function NewEdges(objects: map<nat, Object>, edges: set<Edge>, t: Turn, n: nat): set<Edge> {
    match t.role
    case User => (
      var previous := PriorAssistant(objects, n);
      if previous.Some? then {Continues(previous.value, n)} else {})
    case Assistant => (
      var u := Answers(objects, edges, t.run, n);
      if u.Some? then {Reply(u.value, n)} else {})
    case Other => {}
  }

  function Saved(c: Chat, t: Turn): Chat {
    var n := |c.turns|;
    if !c.attached then c.(turns := c.turns + [t])
    else Chat(c.turns + [t], true, c.objects[n := LiveObject(t)], c.edges + NewEdges(c.objects, c.edges, t, n))
  }

  /**
   A saved user turn continues the newest assistant turn; a saved answer replies to the newest user turn without a reply, of the same
   run if it carries one. Nothing is indexed before the session is attached.
   */
  lemma SavedEdgesAre(c: Chat, t: Turn, u: nat)
    requires u < |c.turns| && forall e | e in c.edges :: Reply(u, |c.turns|) != e && Continues(u, |c.turns|) != e
    ensures !c.attached ==> Saved(c, t) == c.(turns := c.turns + [t])
    ensures c.attached ==> Saved(c, t).objects == c.objects[|c.turns| := Object(if t.role == Assistant then ByAssistant else ByUser, t.run)]
    ensures Continues(u, |c.turns|) in Saved(c, t).edges <==>
      && c.attached && t.role == User && u in c.objects && c.objects[u].author == ByAssistant
      && forall v | u < v < |c.turns| && v in c.objects :: c.objects[v].author != ByAssistant
    ensures Reply(u, |c.turns|) in Saved(c, t).edges <==>
      && c.attached && t.role == Assistant
      && u in c.objects && c.objects[u].author == ByUser && (forall a: nat :: Reply(u, a) !in c.edges)
      && (t.run == None || t.run == Some("") || c.objects[u].run == t.run)
      && forall v | u < v < |c.turns| && v in c.objects && c.objects[v].author == ByUser && (forall a: nat :: Reply(v, a) !in c.edges) ::
           t.run != None && t.run != Some("") && c.objects[v].run != t.run
  {
    var n := |c.turns|;
    forall v: nat ensures Replied(c.edges, v) <==> exists a: nat :: Reply(v, a) in c.edges {
      if e :| e in c.edges && e.Reply? && e.user == v {
        assert Reply(v, e.assistant) in c.edges;
      }
    }
    if c.attached && t.role == Assistant {
      forall v: nat | v < n ensures Answerable(c.objects, c.edges, t.run, v) <==>
        && v in c.objects && c.objects[v].author == ByUser && (forall a: nat :: Reply(v, a) !in c.edges)
        && (t.run == None || t.run == Some("") || c.objects[v].run == t.run)
      {
        assert Replied(c.edges, v) <==> exists a: nat :: Reply(v, a) in c.edges;
      }
      var found := Answers(c.objects, c.edges, t.run, n);
      assert Reply(u, n) in Saved(c, t).edges <==> found == Some(u);
      assert found == Some(u) <==> Answerable(c.objects, c.edges, t.run, u) && forall v: nat | u < v < n :: !Answerable(c.objects, c.edges, t.run, v);
    }
  }

  /// Backfilling.

  function BackfilledObject(t: Turn): Object {
    Object(match t.role case User => ByUser case Assistant => ByAssistant case Other => BySystem, None)
  }

  // The user turn waiting for an answer just before turn `n`.
  function Waiting(turns: seq<Turn>, n: nat): (r: Option<nat>)
    requires n <= |turns|
    ensures r.Some? ==> r.value < n && turns[r.value].role.User?
    ensures forall i | (if r.Some? then r.value < i else false) && i < n :: turns[i].role.Other?
  {
    if n == 0 then None
    else match turns[n - 1].role
      case User => Some(n - 1)
      case Assistant => None
      case Other => Waiting(turns, n - 1)
  }

  function LastAssistant(turns: seq<Turn>, n: nat): (r: Option<nat>)
    requires n <= |turns|
    ensures r.Some? ==> r.value < n && turns[r.value].role.Assistant?
    ensures forall i | (if r.Some? then r.value < i else 0 <= i) && i < n :: !turns[i].role.Assistant?
  {
    if n == 0 then None else if turns[n - 1].role.Assistant? then Some(n - 1) else LastAssistant(turns, n - 1)
  }

  function Replies(turns: seq<Turn>, edges: set<Edge>, n: nat): set<Edge>
    requires n <= |turns|
  {
    if n == 0 then edges
    else
      var before, u := Replies(turns, edges, n - 1), Waiting(turns, n - 1);
      if turns[n - 1].role.Assistant? && u.Some? && !Replied(before, u.value) then before + {Reply(u.value, n - 1)} else before
  }

  function Continuations(turns: seq<Turn>, edges: set<Edge>, n: nat): set<Edge>
    requires n <= |turns|
  {
    if n == 0 then edges
    else
      var before, a := Continuations(turns, edges, n - 1), LastAssistant(turns, n - 1);
      if turns[n - 1].role.User? && a.Some? then before + {Continues(a.value, n - 1)} else before
  }

  function Completed(objects: map<nat, Object>, turns: seq<Turn>): map<nat, Object> {
    (map i: nat | i < |turns| :: BackfilledObject(turns[i])) + objects
  }

  function Attached(c: Chat): Chat {
    var n := |c.turns|;
    Chat(c.turns, true, Completed(c.objects, c.turns), Continuations(c.turns, Replies(c.turns, c.edges, n), n))
  }

  /// The session record itself.

  class Session {
    var turns: seq<Turn>
    var attached: bool
    var objects: map<nat, Object>
    var edges: set<Edge>

    constructor ()
      ensures View() == Chat([], false, map[], {})
    {
      turns, attached, objects, edges := [], false, map[], {};
    }

    function View(): Chat
      reads this
    {
      Chat(turns, attached, objects, edges)
    }

    method SaveMessage(t: Turn)
      modifies this
      ensures View() == Saved(old(View()), t)
    {
      var n := |turns|;
      turns := turns + [t];
      if !attached {
        return;
      }
      ghost var before := objects;
      objects := objects[n := LiveObject(t)];
      PriorAssistantIgnores(before, n, LiveObject(t), n);
      if t.role.User? {
        var previous := PriorAssistant(objects, n);
        if previous.Some? {
          edges := edges + {Continues(previous.value, n)};
        }
      } else if t.role.Assistant? {
        var u := n;
        while u > 0
          invariant 0 <= u <= n
          invariant edges == old(edges) && Answers(before, edges, t.run, n) == Answers(before, edges, t.run, u)
        {
          u := u - 1;
          if u in objects && objects[u].author.ByUser? {
            if Carries(t.run) && objects[u].run != t.run {
              continue;
            }
            if !Replied(edges, u) {
              edges := edges + {Reply(u, n)};
              break;
            }
          }
        }
      }
    }

    method CompleteObjects()
      modifies this`objects
      ensures objects == Completed(old(objects), turns)
    {
      for i := 0 to |turns|
        invariant objects == Completed(old(objects), turns[..i])
      {
        assert turns[..i + 1][..i] == turns[..i] && turns[..i + 1][i] == turns[i];
        if i !in objects {
          objects := objects[i := BackfilledObject(turns[i])];
        }
      }
      assert turns[..|turns|] == turns;
    }

    method AddReplies()
      modifies this`edges
      ensures edges == Replies(turns, old(edges), |turns|)
    {
      var waiting: Option<nat> := None;
      for i := 0 to |turns|
        invariant waiting == Waiting(turns, i) && edges == Replies(turns, old(edges), i)
      {
        if turns[i].role.User? {
          waiting := Some(i);
        } else if turns[i].role.Assistant? && waiting.Some? {
          if !Replied(edges, waiting.value) {
            edges := edges + {Reply(waiting.value, i)};
          }
          waiting := None;
        }
      }
    }

    method AddContinuations()
      modifies this`edges
      ensures edges == Continuations(turns, old(edges), |turns|)
    {
      var previous: Option<nat> := None;
      for i := 0 to |turns|
        invariant previous == LastAssistant(turns, i) && edges == Continuations(turns, old(edges), i)
      {
        if turns[i].role.User? {
          if previous.Some? && Continues(previous.value, i) !in edges {
            edges := edges + {Continues(previous.value, i)};
          }
        } else if turns[i].role.Assistant? {
          previous := Some(i);
        }
      }
    }

    /** Attaching an existing session, or attaching it again. */
    method AttachToProject()
      modifies this
      ensures View() == Attached(old(View()))
    {
      attached := true;
      CompleteObjects();
      AddReplies();
      AddContinuations();
    }
  }

  lemma {:induction false} PriorAssistantIgnores(objects: map<nat, Object>, k: nat, o: Object, n: nat)
    requires n <= k
    ensures PriorAssistant(objects[k := o], n) == PriorAssistant(objects, n)
  {
    if n > 0 {
      PriorAssistantIgnores(objects, k, o, n - 1);
    }
  }

  /// At most one reply.

  ghost predicate OneReplyEach(edges: set<Edge>) {
    forall e, f | e in edges && f in edges && e.Reply? && f.Reply? && e.user == f.user :: e == f
  }

  lemma {:induction false} RepliesKeepOne(turns: seq<Turn>, edges: set<Edge>, n: nat)
    requires n <= |turns| && OneReplyEach(edges)
    ensures OneReplyEach(Replies(turns, edges, n)) && edges <= Replies(turns, edges, n)
  {
    if n > 0 {
      RepliesKeepOne(turns, edges, n - 1);
    }
  }

  lemma {:induction false} ContinuationsOnlyContinue(turns: seq<Turn>, edges: set<Edge>, n: nat)
    requires n <= |turns|
    ensures edges <= Continuations(turns, edges, n)
    ensures forall e | e in Continuations(turns, edges, n) :: e in edges || e.Continues?
  {
    if n > 0 {
      ContinuationsOnlyContinue(turns, edges, n - 1);
    }
  }

  datatype Action = Save(turn: Turn) | Attach

  function Acted(c: Chat, a: Action): Chat {
    match a
    case Save(t) => Saved(c, t)
    case Attach => Attached(c)
  }

  function History(actions: seq<Action>): Chat {
    if actions == [] then Chat([], false, map[], {}) else Acted(History(actions[..|actions| - 1]), actions[|actions| - 1])
  }

  /** However saving and attaching are mixed, no turn ever gets two replies. */
  lemma {:induction false} NoTurnHasTwoReplies(actions: seq<Action>)
    ensures OneReplyEach(History(actions).edges)
  {
    if actions != [] {
      var c := History(actions[..|actions| - 1]);
      NoTurnHasTwoReplies(actions[..|actions| - 1]);
      if actions[|actions| - 1].Attach? {
        RepliesKeepOne(c.turns, c.edges, |c.turns|);
        ContinuationsOnlyContinue(c.turns, Replies(c.turns, c.edges, |c.turns|), |c.turns|);
      }
    }
  }

  /// A second backfill.

  // Every answer up to `n` has found its user turn already replied, and every continuation is there.
  ghost predicate Saturated(turns: seq<Turn>, edges: set<Edge>, n: nat)
    requires n <= |turns|
  {
    && (forall i | 0 <= i < n && turns[i].role.Assistant? && Waiting(turns, i).Some? :: Replied(edges, Waiting(turns, i).value))
    && (forall i | 0 <= i < n && turns[i].role.User? && LastAssistant(turns, i).Some? :: Continues(LastAssistant(turns, i).value, i) in edges)
  }

  lemma {:induction false} RepliesSaturate(turns: seq<Turn>, edges: set<Edge>, n: nat)
    requires n <= |turns|
    ensures edges <= Replies(turns, edges, n)
    ensures forall i | 0 <= i < n && turns[i].role.Assistant? && Waiting(turns, i).Some? ::
      Replied(Replies(turns, edges, n), Waiting(turns, i).value)
  {
    if n > 0 {
      RepliesSaturate(turns, edges, n - 1);
      var before, after := Replies(turns, edges, n - 1), Replies(turns, edges, n);
      forall u | Replied(before, u) ensures Replied(after, u) {
        var e :| e in before && e.Reply? && e.user == u;
        assert e in after;
      }
      var w := Waiting(turns, n - 1);
      if turns[n - 1].role.Assistant? && w.Some? && !Replied(before, w.value) {
        assert Reply(w.value, n - 1) in after;
      }
    }
  }

  lemma ContinuationsSaturate(turns: seq<Turn>, edges: set<Edge>, n: nat)
    requires n <= |turns|
    ensures edges <= Continuations(turns, edges, n)
    ensures forall i | 0 <= i < n && turns[i].role.User? && LastAssistant(turns, i).Some? ::
      Continues(LastAssistant(turns, i).value, i) in Continuations(turns, edges, n)
  {
    ContinuationsOnlyContinue(turns, edges, n);
    forall i | 0 <= i < n && turns[i].role.User? && LastAssistant(turns, i).Some?
      ensures Continues(LastAssistant(turns, i).value, i) in Continuations(turns, edges, n)
    {
      ContinuationIsThere(turns, edges, n, i);
    }
  }

  lemma {:induction false} ContinuationIsThere(turns: seq<Turn>, edges: set<Edge>, n: nat, i: nat)
    requires i < n <= |turns| && turns[i].role.User? && LastAssistant(turns, i).Some?
    ensures Continues(LastAssistant(turns, i).value, i) in Continuations(turns, edges, n)
  {
    if i < n - 1 {
      ContinuationIsThere(turns, edges, n - 1, i);
    }
  }

  lemma {:induction false} SaturatedAddsNothing(turns: seq<Turn>, edges: set<Edge>, n: nat)
    requires n <= |turns| && Saturated(turns, edges, n)
    ensures Replies(turns, edges, n) == edges && Continuations(turns, edges, n) == edges
  {
    if n > 0 {
      SaturatedAddsNothing(turns, edges, n - 1);
    }
  }

  /** For any conversation, attaching a second time adds nothing. */
  lemma AttachIsIdempotent(c: Chat)
    ensures Attached(Attached(c)) == Attached(c)
  {
    var n, once := |c.turns|, Attached(c);
    AttachedIsSaturated(c, c.turns);
    SaturatedAddsNothing(c.turns, once.edges, n);
    assert Completed(once.objects, c.turns) == once.objects;
  }

  /// Live indexing against the backfill.

  function Live(turns: seq<Turn>, n: nat): Chat
    requires n <= |turns|
  {
    if n == 0 then Chat([], true, map[], {}) else Saved(Live(turns, n - 1), turns[n - 1])
  }

  function Rebuilt(turns: seq<Turn>, n: nat): set<Edge>
    requires n <= |turns|
  {
    Replies(turns, {}, n) + Continuations(turns, {}, n)
  }

  ghost predicate Unanswered(turns: seq<Turn>, u: nat, n: nat)
    requires n <= |turns|
  {
    forall a | u < a < n && turns[a].role.Assistant? :: Waiting(turns, a) != Some(u)
  }

  // The answer at `n` may be attached to turn `u` as far as the run goes.
  predicate Matches(turns: seq<Turn>, u: nat, n: nat)
    requires u < |turns| && n < |turns|
  {
    Carries(turns[n].run) ==> turns[u].run == turns[n].run
  }

  // What live saving may take for the user turn answered at `n`: it counts tool and system turns as the user's.
  ghost predicate Claims(turns: seq<Turn>, u: nat, n: nat)
    requires u < n < |turns|
  {
    !turns[u].role.Assistant? && Unanswered(turns, u, n) && Matches(turns, u, n)
  }

  // An answer carries the run of the user turn waiting for it, or none, and no later turn claims it; an answer for which
  // no user turn waits is claimed by nobody.
  ghost predicate Fits(turns: seq<Turn>, n: nat)
    requires n < |turns|
  {
    match Waiting(turns, n)
    case Some(w) => Matches(turns, w, n) && forall u | w < u < n :: !Claims(turns, u, n)
    case None => forall u | 0 <= u < n :: !Claims(turns, u, n)
  }

  ghost predicate Consistent(turns: seq<Turn>, n: nat)
    requires n <= |turns|
  {
    forall i | 0 <= i < n && turns[i].role.Assistant? :: Fits(turns, i)
  }

  function Newest(e: Edge): nat {
    match e case Reply(_, a) => a case Continues(_, u) => u
  }

  lemma {:induction false} RepliesAre(turns: seq<Turn>, n: nat, e: Edge)
    requires n <= |turns|
    ensures e in Replies(turns, {}, n) <==>
      e.Reply? && e.assistant < n && turns[e.assistant].role.Assistant? && Waiting(turns, e.assistant) == Some(e.user)
  {
    if n > 0 {
      RepliesAre(turns, n - 1, e);
      var before, w := Replies(turns, {}, n - 1), Waiting(turns, n - 1);
      if w.Some? && Replied(before, w.value) {
        var f :| f in before && f.Reply? && f.user == w.value;
        RepliesAre(turns, n - 1, f);
      }
    }
  }

  lemma {:induction false} ContinuationsAre(turns: seq<Turn>, edges: set<Edge>, n: nat, e: Edge)
    requires n <= |turns|
    ensures e in Continuations(turns, edges, n) <==>
      e in edges || (e.Continues? && e.next < n && turns[e.next].role.User? && LastAssistant(turns, e.next) == Some(e.previous))
  {
    if n > 0 {
      ContinuationsAre(turns, edges, n - 1, e);
    }
  }

  // What attaching a session that was saved unattached makes of it.
  lemma AttachRebuilds(turns: seq<Turn>)
    ensures Attached(Chat(turns, false, map[], {})).edges == Rebuilt(turns, |turns|)
  {
    var n := |turns|;
    forall e ensures e in Continuations(turns, Replies(turns, {}, n), n) <==> e in Rebuilt(turns, n) {
      ContinuationsAre(turns, Replies(turns, {}, n), n, e);
      ContinuationsAre(turns, {}, n, e);
    }
  }

  /**
   Turn by turn, a backfill of a session saved unattached replies to a user turn with the next assistant turn when no other user or
   assistant turn lies between, and continues the newest assistant turn with every later user turn before the next one.
   */
  lemma BackfilledEdgesAre(turns: seq<Turn>, i: nat, k: nat)
    requires i < k < |turns|
    ensures var c := Attached(Chat(turns, false, map[], {}));
      && c.attached && c.turns == turns
      && (Reply(i, k) in c.edges <==> turns[i].role == User && turns[k].role == Assistant && forall m | i < m < k :: turns[m].role == Other)
      && (Continues(i, k) in c.edges <==> turns[i].role == Assistant && turns[k].role == User && forall m | i < m < k :: turns[m].role != Assistant)
      && i in c.objects
      && c.objects[i] == Object(if turns[i].role == User then ByUser else if turns[i].role == Assistant then ByAssistant else BySystem, None)
  {
    var n := |turns|;
    AttachRebuilds(turns);
    RepliesAre(turns, n, Reply(i, k));
    ContinuationsAre(turns, {}, n, Reply(i, k));
    RepliesAre(turns, n, Continues(i, k));
    ContinuationsAre(turns, {}, n, Continues(i, k));
    if turns[i].role == User && forall m | i < m < k :: turns[m].role == Other {
      WaitsSince(turns, i, k);
    }
  }

  lemma {:induction false} WaitsSince(turns: seq<Turn>, i: nat, k: nat)
    requires i < k <= |turns| && turns[i].role == User && forall m | i < m < k :: turns[m].role == Other
    ensures Waiting(turns, k) == Some(i)
  {
    if i < k - 1 {
      WaitsSince(turns, i, k - 1);
    }
  }

  lemma {:induction false} LiveIs(turns: seq<Turn>, n: nat)
    requires n <= |turns|
    ensures var c := Live(turns, n);
      && c.turns == turns[..n] && c.attached && c.objects == (map i: nat | i < n :: LiveObject(turns[i]))
      && forall e | e in c.edges :: Newest(e) < n
  {
    if n > 0 {
      LiveIs(turns, n - 1);
    }
  }

  lemma {:induction false} PriorIsLast(turns: seq<Turn>, n: nat, m: nat)
    requires m <= n <= |turns|
    ensures PriorAssistant(map i: nat | i < n :: LiveObject(turns[i]), m) == LastAssistant(turns, m)
  {
    if m > 0 {
      PriorIsLast(turns, n, m - 1);
    }
  }

  lemma ReplyIffAnswered(turns: seq<Turn>, n: nat, u: nat)
    requires n <= |turns|
    ensures Replied(Rebuilt(turns, n), u) <==> !(Unanswered(turns, u, n))
  {
    if Replied(Rebuilt(turns, n), u) {
      var e :| e in Rebuilt(turns, n) && e.Reply? && e.user == u;
      RepliesAre(turns, n, e);
      ContinuationsAre(turns, {}, n, e);
    }
    if !Unanswered(turns, u, n) {
      var a :| u < a < n && turns[a].role.Assistant? && Waiting(turns, a) == Some(u);
      RepliesAre(turns, n, Reply(u, a));
      assert Reply(u, a) in Rebuilt(turns, n);
    }
  }

  // The answer at `n` is attached live to the turn the backfill would choose exactly when it fits.
  lemma AnswerAgreesIff(turns: seq<Turn>, n: nat)
    requires n < |turns| && turns[n].role.Assistant? && Live(turns, n).edges == Rebuilt(turns, n)
    ensures Answers(Live(turns, n).objects, Live(turns, n).edges, turns[n].run, n) == Waiting(turns, n) <==> Fits(turns, n)
  {
    LiveIs(turns, n);
    var c, run, w := Live(turns, n), turns[n].run, Waiting(turns, n);
    forall u: nat | u < n ensures Answerable(c.objects, c.edges, run, u) <==> Claims(turns, u, n) {
      ReplyIffAnswered(turns, n, u);
    }
    var found := Answers(c.objects, c.edges, run, n);
    if w.Some? {
      WaitingIsUnanswered(turns, n);
      assert Claims(turns, w.value, n) <==> Matches(turns, w.value, n);
    }
    if found == w {
      forall u: nat | (if w.Some? then w.value < u else true) && u < n ensures !Claims(turns, u, n) {
        assert !Answerable(c.objects, c.edges, run, u);
      }
    }
  }

  lemma WaitingIsUnanswered(turns: seq<Turn>, n: nat)
    requires n <= |turns| && Waiting(turns, n).Some?
    ensures Unanswered(turns, Waiting(turns, n).value, n)
  {
  }

  lemma StepAgreesIff(turns: seq<Turn>, n: nat)
    requires n < |turns| && Live(turns, n).edges == Rebuilt(turns, n)
    ensures Live(turns, n + 1).edges == Rebuilt(turns, n + 1) <==> (turns[n].role.Assistant? ==> Fits(turns, n))
  {
    LiveIs(turns, n);
    if turns[n].role.User? {
      PriorIsLast(turns, n, n);
    } else if turns[n].role.Assistant? {
      AnswerAgreesIff(turns, n);
      NewReply(turns, n);
      LiveReplies(turns, n);
    }
  }

  lemma NewReply(turns: seq<Turn>, n: nat)
    requires n < |turns| && turns[n].role.Assistant?
    ensures forall u: nat :: Reply(u, n) in Rebuilt(turns, n + 1) <==> Waiting(turns, n) == Some(u)
    ensures forall e | Newest(e) != n :: e in Rebuilt(turns, n + 1) <==> e in Rebuilt(turns, n)
    ensures forall e | e in Rebuilt(turns, n + 1) && Newest(e) == n :: e.Reply?
  {
    forall e: Edge ensures e in Rebuilt(turns, n + 1) <==> e in Rebuilt(turns, n) || (e.Reply? && e.assistant == n && Waiting(turns, n) == Some(e.user)) {
      RepliesAre(turns, n, e);
      RepliesAre(turns, n + 1, e);
      ContinuationsAre(turns, {}, n, e);
      ContinuationsAre(turns, {}, n + 1, e);
    }
    forall e | e in Rebuilt(turns, n) ensures Newest(e) < n {
      RepliesAre(turns, n, e);
      ContinuationsAre(turns, {}, n, e);
    }
  }

  lemma LiveReplies(turns: seq<Turn>, n: nat)
    requires n < |turns| && turns[n].role.Assistant?
    ensures var c := Live(turns, n);
      forall u: nat :: Reply(u, n) in Live(turns, n + 1).edges <==> Answers(c.objects, c.edges, turns[n].run, n) == Some(u)
    ensures forall e | Newest(e) != n :: e in Live(turns, n + 1).edges <==> e in Live(turns, n).edges
  {
    LiveIs(turns, n);
  }

  // Agreement over the whole conversation means agreement at every earlier point.
  lemma AgreementReachesBack(turns: seq<Turn>, n: nat)
    requires n < |turns| && Live(turns, n + 1).edges == Rebuilt(turns, n + 1)
    ensures Live(turns, n).edges == Rebuilt(turns, n)
  {
    LiveIs(turns, n);
    forall e ensures e in Live(turns, n).edges <==> e in Rebuilt(turns, n) {
      RepliesAre(turns, n, e);
      RepliesAre(turns, n + 1, e);
      ContinuationsAre(turns, {}, n, e);
      ContinuationsAre(turns, {}, n + 1, e);
      assert e in Live(turns, n).edges ==> Newest(e) < n;
    }
  }

  lemma {:induction false} AgreesIffConsistent(turns: seq<Turn>, n: nat)
    requires n <= |turns|
    ensures Live(turns, n).edges == Rebuilt(turns, n) <==> Consistent(turns, n)
  {
    if n > 0 {
      AgreesIffConsistent(turns, n - 1);
      if Live(turns, n).edges == Rebuilt(turns, n) {
        AgreementReachesBack(turns, n - 1);
      }
      if Consistent(turns, n) || Live(turns, n).edges == Rebuilt(turns, n) {
        StepAgreesIff(turns, n - 1);
      }
    }
  }

  /** Live saving and a later backfill produce the same edges if and only if every answer fits its place. */
  lemma LiveEqualsBackfillIff(turns: seq<Turn>)
    ensures Live(turns, |turns|).edges == Attached(Chat(turns, false, map[], {})).edges <==> Consistent(turns, |turns|)
  {
    AgreesIffConsistent(turns, |turns|);
    AttachRebuilds(turns);
  }

  // Alternating conversations whose answers carry the run of the turn before, or none, are consistent.
  lemma AlternatingIsConsistent(turns: seq<Turn>)
    requires forall i | 0 <= i < |turns| :: turns[i].role == User || turns[i].role == Assistant
    requires forall i, j | 0 <= i < j < |turns| && turns[i].role.Assistant? && turns[j].role.Assistant? ::
      exists k :: i < k < j && turns[k].role.User?
    requires forall i | 0 < i < |turns| && turns[i].role.Assistant? && Carries(turns[i].run) :: turns[i - 1].run == turns[i].run
    ensures Consistent(turns, |turns|)
  {
    forall i | 0 <= i < |turns| && turns[i].role.Assistant? ensures Fits(turns, i) {
      if i > 0 {
        assert turns[i - 1].role.User?;
      }
    }
  }

  // A tool or system turn is taken for a user turn by live saving only.
  lemma OtherRolesDisagree()
    ensures var turns := [Turn(User, None), Turn(Other, None), Turn(Assistant, None)];
      !Consistent(turns, 3) && Reply(1, 2) in Live(turns, 3).edges && Reply(0, 2) in Attached(Chat(turns, false, map[], {})).edges
  {
    var turns := [Turn(User, None), Turn(Other, None), Turn(Assistant, None)];
    LiveIs(turns, 2);
    LiveReplies(turns, 2);
    NewReply(turns, 2);
    assert Live(turns, 2).edges == {};
    assert Answers(Live(turns, 2).objects, {}, None, 2) == Some(1);
    assert Waiting(turns, 2) == Some(0);
    assert Claims(turns, 1, 2);
    assert !Fits(turns, 2);
    AttachRebuilds(turns);
  }

  lemma {:induction false} PrefixSees(turns: seq<Turn>, q: seq<Turn>, k: nat)
    requires q <= turns && k <= |q|
    ensures Waiting(turns, k) == Waiting(q, k) && LastAssistant(turns, k) == LastAssistant(q, k)
  {
    if k > 0 {
      PrefixSees(turns, q, k - 1);
    }
  }

  lemma AttachedIsSaturated(c: Chat, turns: seq<Turn>)
    requires c.turns <= turns
    ensures Saturated(turns, Attached(c).edges, |c.turns|)
  {
    var n := |c.turns|;
    var replies := Replies(c.turns, c.edges, n);
    RepliesSaturate(c.turns, c.edges, n);
    ContinuationsSaturate(c.turns, replies, n);
    forall u | Replied(replies, u) ensures Replied(Attached(c).edges, u) {
      var e :| e in replies && e.Reply? && e.user == u;
      assert e in Attached(c).edges;
    }
    forall i | 0 <= i < n ensures turns[i] == c.turns[i] && Waiting(turns, i) == Waiting(c.turns, i)
                                  && LastAssistant(turns, i) == LastAssistant(c.turns, i) {
      PrefixSees(turns, c.turns, i);
    }
  }

  /** Backfilled turns carry no run: an answer labelled with one gets no reply edge until the next backfill adds it. */
  lemma AttachForgetsRuns(c: Chat, t: Turn)
    requires c == Chat(c.turns, false, map[], {}) && t.role.Assistant? && Carries(t.run)
    ensures Saved(Attached(c), t).edges == Attached(c).edges
    ensures Waiting(c.turns, |c.turns|).Some? ==>
      Reply(Waiting(c.turns, |c.turns|).value, |c.turns|) in Attached(Saved(Attached(c), t)).edges
  {
    NobodyHasTheRun(c, t);
    if Waiting(c.turns, |c.turns|).Some? {
      BackfillAddsReply(c, t);
    }
  }

  lemma NobodyHasTheRun(c: Chat, t: Turn)
    requires c == Chat(c.turns, false, map[], {}) && t.role.Assistant? && Carries(t.run)
    ensures Saved(Attached(c), t).edges == Attached(c).edges && Saved(Attached(c), t).turns == c.turns + [t]
  {
    var a, n := Attached(c), |c.turns|;
    assert Answers(a.objects, a.edges, t.run, n).None?;
  }

  lemma BackfillAddsReply(c: Chat, t: Turn)
    requires c == Chat(c.turns, false, map[], {}) && t.role.Assistant? && Waiting(c.turns, |c.turns|).Some?
    requires Saved(Attached(c), t).edges == Attached(c).edges && Saved(Attached(c), t).turns == c.turns + [t]
    ensures Reply(Waiting(c.turns, |c.turns|).value, |c.turns|) in Attached(Saved(Attached(c), t)).edges
  {
    var n, w, once := |c.turns|, Waiting(c.turns, |c.turns|).value, Attached(c).edges;
    var turns := c.turns + [t];
    AttachRebuilds(c.turns);
    ReplyIffAnswered(c.turns, n, w);
    WaitingIsUnanswered(c.turns, n);
    AttachedIsSaturated(c, turns);
    SaturatedAddsNothing(turns, once, n);
    PrefixSees(turns, c.turns, n);
    assert Reply(w, n) in Replies(turns, once, n + 1);
    ContinuationsOnlyContinue(turns, Replies(turns, once, n + 1), n + 1);
  }
}
