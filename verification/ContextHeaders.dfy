/** The call context as HTTP headers and back (mcp_core/context.py). */
module ContextHeaders {
  import opened Options
  import opened SlotCodec
  import opened SessionRegistry

  /** What Python says about a character. */
  datatype Unicode = Unicode(space: Code -> bool, printable: Code -> bool)

  /** What only a server sets; no header carries it. */
  datatype ServerSide = ServerSide(profile: Option<Text>, client: Option<Text>, actorVerified: bool,
                                   serviceVerified: bool, refusal: Option<Text>, taskId: Option<Text>, taskVerified: bool)

  const NOTHING_SET := ServerSide(None, None, false, false, None, None, false)

  datatype Context = Context(project: Option<Project>, session: Session, actor: Text, correlation: nat,
                             run: Option<Text>, phase: Option<Text>, model: Option<Text>, slots: seq<Slot>, server: ServerSide)

  /** "system:unattributed". */
  const UNATTRIBUTED: Text := [115, 121, 115, 116, 101, 109, 58, 117, 110, 97, 116, 116, 114, 105, 98, 117, 116, 101, 100]

  const SENTINEL := Context(None, Session(0), UNATTRIBUTED, 0, None, None, None, [], NOTHING_SET)

  /** A header meant for a uuid spells one or does not. */
  datatype UuidText = Spells(uuid: nat) | Garbled

  /** The headers the context uses, by name; names are already folded. */
  datatype Headers = Headers(project: Option<UuidText>, session: Option<UuidText>, actor: Option<Text>,
                             correlation: Option<UuidText>, run: Option<Text>, phase: Option<Text>, model: Option<Text>,
                             slots: Option<Text>)

  const NO_HEADERS := Headers(None, None, None, None, None, None, None, None)

  function NonEmpty(t: Option<Text>): Option<Text> {
    if t == Some([]) then None else t
  }

  /** `context_to_headers`. */
  function ToHeaders(c: Context): Headers {
    if c == SENTINEL then NO_HEADERS
    else
      Headers(if c.project.Some? then Some(Spells(c.project.value.uuid)) else None, Some(Spells(c.session.uuid)),
              Some(c.actor), Some(Spells(c.correlation)), NonEmpty(c.run), NonEmpty(c.phase), NonEmpty(c.model),
              if c.slots == [] then None else Some(EncodeItemSlots(c.slots)))
  }

  function ParseUuid(t: Option<UuidText>): Option<nat> {
    if t.Some? && t.value.Spells? then Some(t.value.uuid) else None
  }

  function StripLeft(u: Unicode, t: Text): Text {
    if t != [] && u.space(t[0]) then StripLeft(u, t[1..]) else t
  }

  function StripRight(u: Unicode, t: Text): Text {
    if t != [] && u.space(t[|t| - 1]) then StripRight(u, t[..|t| - 1]) else t
  }

  predicate AllPrintable(u: Unicode, t: Text) {
    forall c :: c in t ==> u.printable(c)
  }

  /** `_claim`: stripped, printable, at most 200 long, or nothing. */
  function Claim(u: Unicode, t: Option<Text>): Option<Text> {
    if t.None? || t.value == [] then None
    else
      var s := StripRight(u, StripLeft(u, t.value));
      if s == [] || !AllPrintable(u, s) then None
      else Some(s[..AtMost(|s|, MAX_CLAIM_LENGTH)])
  }

  /** What comes of reading the headers: nested slots can raise. */
  datatype Receipt = Received(context: Context) | RecursionRaised

  /** `context_from_headers`, with the ids a receiver would make up itself and the levels of
      recursion it has left. */
  function FromHeaders(u: Unicode, h: Headers, bindings: seq<Entry>, newSession: Session, newCorrelation: nat,
                       limit: nat): Receipt
  {
    var slots := if h.slots.Some? then DecodedWithin(h.slots.value, limit) else Slots([]);
    if slots == RecursionError then RecursionRaised
    else Received(ContextOf(u, h, bindings, newSession, newCorrelation, slots.slots))
  }

  function ContextOf(u: Unicode, h: Headers, bindings: seq<Entry>, newSession: Session, newCorrelation: nat,
                     slots: seq<Slot>): Context
  {
    var session, correlation, named := ParseUuid(h.session), ParseUuid(h.correlation), ParseUuid(h.project);
    var project := if named.Some? then Some(Project(named.value))
                   else if session.Some? then Lookup(bindings, Session(session.value))
                   else None;
    Context(project,
            if session.Some? then Session(session.value) else newSession,
            if h.actor.Some? && h.actor.value != [] then h.actor.value else UNATTRIBUTED,
            if correlation.Some? then correlation.value else newCorrelation,
            Claim(u, h.run), Claim(u, h.phase), Claim(u, h.model),
            slots, NOTHING_SET)
  }

  // ----- The round trip ---------------------------------------------------------------

  /** A claim as the receiver would write it itself. */
  predicate Normal(u: Unicode, t: Text) {
    && 0 < |t| <= 200
    && !u.space(t[0]) && !u.space(t[|t| - 1]) && AllPrintable(u, t)
  }

  lemma {:induction false} StripLeftFacts(u: Unicode, t: Text)
    ensures |StripLeft(u, t)| <= |t|
    ensures |StripLeft(u, t)| == |t| <==> StripLeft(u, t) == t
    ensures StripLeft(u, t) == t <==> t == [] || !u.space(t[0])
  {
    if t == [] || !u.space(t[0]) {
    } else {
      StripLeftFacts(u, t[1..]);
    }
  }

  lemma {:induction false} StripRightFacts(u: Unicode, t: Text)
    ensures |StripRight(u, t)| <= |t|
    ensures StripRight(u, t) == t <==> t == [] || !u.space(t[|t| - 1])
  {
    if t == [] || !u.space(t[|t| - 1]) {
    } else {
      StripRightFacts(u, t[..|t| - 1]);
    }
  }

  /** Exactly the normal claims come back as they are. */
  lemma {:induction false} ClaimKeeps(u: Unicode, t: Text)
    ensures Claim(u, Some(t)) == Some(t) <==> Normal(u, t)
  {
    var left := StripLeft(u, t);
    StripLeftFacts(u, t);
    StripRightFacts(u, left);
    StripRightFacts(u, t);
    var s := StripRight(u, left);
    var cut := s[..AtMost(|s|, MAX_CLAIM_LENGTH)];
    assert |cut| <= |s| <= |left| <= |t| && (|cut| == |s| ==> cut == s);
    hide StripLeft, StripRight, AllPrintable;
  }

  ghost predicate Spaces(u: Unicode, t: Text) {
    forall c :: c in t ==> u.space(c)
  }

  lemma {:induction false} StripLeftMeans(u: Unicode, a: Text, m: Text)
    requires Spaces(u, a) && (m != [] ==> !u.space(m[0]))
    ensures StripLeft(u, a + m) == m
  {
    if a == [] {
      assert a + m == m;
    } else {
      assert (a + m)[1..] == a[1..] + m;
      StripLeftMeans(u, a[1..], m);
    }
  }

  lemma {:induction false} StripRightMeans(u: Unicode, m: Text, b: Text)
    requires Spaces(u, b) && (m != [] ==> !u.space(m[|m| - 1]))
    ensures StripRight(u, m + b) == m
  {
    if b == [] {
      assert m + b == m;
    } else {
      assert (m + b)[..|m + b| - 1] == m + b[..|b| - 1];
      StripRightMeans(u, m, b[..|b| - 1]);
    }
  }

  /** What a claim is cut down to: the outer spaces go, then it is nothing if nothing is left or
      something unprintable, and else its first 200 characters. */
  lemma {:induction false} ClaimMeans(u: Unicode, a: Text, m: Text, b: Text)
    requires Spaces(u, a) && Spaces(u, b) && (m != [] ==> !u.space(m[0]) && !u.space(m[|m| - 1])) && (m == [] ==> b == [])
    ensures Claim(u, Some(a + m + b)) ==
            if m == [] || exists c :: c in m && !u.printable(c) then None
            else Some(if |m| <= 200 then m else m[..200])
    ensures Claim(u, None) == None
  {
    var t := a + m + b;
    assert t == a + (m + b) && m + [] == m;
    assert m != [] ==> (m + b)[0] == m[0];
    StripLeftMeans(u, a, m + b);
    StripRightMeans(u, m, b);
    hide StripLeft, StripRight, Spaces;
    assert |m| <= 200 ==> m[..|m|] == m;
  }

  /** What a receiver makes of headers it does not understand or that are missing: an id it
      makes up, the unattributed actor, the project its registry knows for a readable session,
      and nothing that only a server sets. */
  lemma {:induction false} ReceivedMeans(u: Unicode, h: Headers, bindings: seq<Entry>, newSession: Session,
            newCorrelation: nat, limit: nat, id: nat)
    requires FromHeaders(u, h, bindings, newSession, newCorrelation, limit).Received?
    ensures var c := FromHeaders(u, h, bindings, newSession, newCorrelation, limit).context;
            && (h.session == Some(Spells(id)) ==> c.session == Session(id))
            && (h.session in {None, Some(Garbled)} ==> c.session == newSession)
            && (h.correlation == Some(Spells(id)) ==> c.correlation == id)
            && (h.correlation in {None, Some(Garbled)} ==> c.correlation == newCorrelation)
            && (h.project == Some(Spells(id)) ==> c.project == Some(Project(id)))
            && (h.project in {None, Some(Garbled)} && h.session == Some(Spells(id)) ==>
                  c.project == Lookup(bindings, Session(id)))
            && (h.project in {None, Some(Garbled)} && h.session in {None, Some(Garbled)} ==> c.project == None)
            && c.actor == (if h.actor in {None, Some([])} then UNATTRIBUTED else h.actor.value)
            && c.run == Claim(u, h.run) && c.phase == Claim(u, h.phase) && c.model == Claim(u, h.model)
            && (h.slots == None ==> c.slots == [])
            && !c.server.actorVerified && !c.server.serviceVerified && !c.server.taskVerified
            && c.server.profile == c.server.client == c.server.refusal == c.server.taskId == None
  {
    hide Claim, DecodedWithin, Lookup;
  }

  predicate ComesBack(u: Unicode, t: Option<Text>) {
    t.None? || Normal(u, t.value)
  }

  lemma {:induction false} ClaimBack(u: Unicode, t: Option<Text>)
    ensures Claim(u, NonEmpty(t)) == t <==> ComesBack(u, t)
  {
    if t.Some? {
      ClaimKeeps(u, t.value);
    }
    hide StripLeft, StripRight, AllPrintable;
  }

  /** Sending a context that is not the sentinel, field by field and exactly: the ids come
      back, an actor iff it is not empty, a claim iff it is absent or normal, slots iff their
      codec restores them, a project unless it is absent and the session is bound to one, and
      nothing that only a server sets. A receiver with two levels of recursion left never
      raises. */
  lemma {:induction false} HeadersRoundTrip(u: Unicode, c: Context, bindings: seq<Entry>, newSession: Session,
            newCorrelation: nat, limit: nat)
    requires c != SENTINEL
    ensures var receipt := FromHeaders(u, ToHeaders(c), bindings, newSession, newCorrelation, limit);
            && (receipt == RecursionRaised <==>
                  c.slots != [] && |EncodeItemSlots(c.slots)| <= MAX_HEADER_LENGTH && limit < 2)
            && (receipt.Received? ==>
                  var back := receipt.context;
                  && back.session == c.session && back.correlation == c.correlation && back.server == NOTHING_SET
                  && (back.actor == c.actor <==> c.actor != [])
                  && (back.run == c.run <==> ComesBack(u, c.run)) && (back.phase == c.phase <==> ComesBack(u, c.phase))
                  && (back.model == c.model <==> ComesBack(u, c.model))
                  && (back.slots == c.slots <==> Restorable(c.slots))
                  && back.project == if c.project.Some? then c.project else Lookup(bindings, c.session))
  {
    ClaimBack(u, c.run);
    ClaimBack(u, c.phase);
    ClaimBack(u, c.model);
    RoundTripIff(c.slots, limit);
    EncodedIsRead(c.slots, limit);
    if c.slots == [] {
      EmptyFits();
    }
    hide Claim, ComesBack, Decoded, EncodeItemSlots, Lookup, NonEmpty, Restorable, Nesting;
  }

  lemma {:induction false} EmptyFits()
    ensures Restorable([])
  {
    assert |EncodeItemSlots([])| == 2;
  }

  /** The sentinel sends nothing, so the receiver takes its own fresh ids. */
  lemma {:induction false} SentinelIsAnonymous(u: Unicode, bindings: seq<Entry>, newSession: Session,
            newCorrelation: nat, limit: nat)
    ensures FromHeaders(u, ToHeaders(SENTINEL), bindings, newSession, newCorrelation, limit) ==
            Received(SENTINEL.(session := newSession, correlation := newCorrelation))
  {
  }

  /** The whole context comes back exactly under these conditions together. */
  lemma {:induction false} HeadersRoundTripIff(u: Unicode, c: Context, bindings: seq<Entry>, newSession: Session,
            newCorrelation: nat, limit: nat)
    requires c != SENTINEL
    ensures FromHeaders(u, ToHeaders(c), bindings, newSession, newCorrelation, limit) == Received(c) <==>
            && c.actor != [] && ComesBack(u, c.run) && ComesBack(u, c.phase) && ComesBack(u, c.model) && c.server == NOTHING_SET
            && |c.slots| <= 64 && |EncodeItemSlots(c.slots)| <= 8192
            && (forall k :: 0 <= k < |c.slots| ==> Faithful(c.slots[k])) && (c.slots != [] ==> limit >= 2)
            && (c.project.None? ==> Lookup(bindings, c.session).None?)
  {
    HeadersRoundTrip(u, c, bindings, newSession, newCorrelation, limit);
    hide FromHeaders, ToHeaders, ComesBack, EncodeItemSlots, Lookup, Faithful;
  }
}
