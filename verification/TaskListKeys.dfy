/**
 The Redis keys of the task-list cache, printed exactly as the application prints them.
 SHA-256 is a parameter `digest`; nothing is assumed of it beyond what a lemma states.
 */
module TaskListKeys {
  import opened Wrappers
  import opened Text
  import opened Clock
  import opened Domain
  import opened TaskListing

  const KEY_PREFIX := "taskhub:v1:project"

  type Digest = string -> string

  // ---------------------------------------------------------------- values as text

  /** 32 digits cut 8-4-4-4-12 by dashes. */
  function Dashed(hex: string): (s: string)
    requires |hex| == 32 && Lacks(hex, ',')
    ensures |s| == 36 && Lacks(s, ',')
  {
    hex[..8] + ("-" + (hex[8..12] + ("-" + (hex[12..16] + ("-" + (hex[16..20] + ("-" + hex[20..])))))))
  }

  lemma DashedInjective(s: string, t: string)
    requires |s| == |t| == 32 && Lacks(s, ',') && Lacks(t, ',') && Dashed(s) == Dashed(t)
    ensures s == t
  {
    var s4, t4 := "-" + s[20..], "-" + t[20..];
    var s3, t3 := "-" + (s[16..20] + s4), "-" + (t[16..20] + t4);
    var s2, t2 := "-" + (s[12..16] + s3), "-" + (t[12..16] + t3);
    var s1, t1 := "-" + (s[8..12] + s2), "-" + (t[8..12] + t2);
    CutAt(s[..8], s1, t[..8], t1);
    CutAt("-", s[8..12] + s2, "-", t[8..12] + t2);
    CutAt(s[8..12], s2, t[8..12], t2);
    CutAt("-", s[12..16] + s3, "-", t[12..16] + t3);
    CutAt(s[12..16], s3, t[12..16], t3);
    CutAt("-", s[16..20] + s4, "-", t[16..20] + t4);
    CutAt(s[16..20], s4, t[16..20], t4);
    CutAt("-", s[20..], "-", t[20..]);
    Reassemble(s);
    Reassemble(t);
  }

  lemma Reassemble(s: string)
    requires |s| == 32
    ensures s == s[..8] + (s[8..12] + (s[12..16] + (s[16..20] + s[20..])))
  {
  }

  /** `str(uuid)`. */
  function UuidText(id: Uuid): (s: string)
    ensures |s| == 36 && Lacks(s, ',')
  {
    Dashed(Hex(id, ""))
  }

  lemma UuidTextInjective(a: Uuid, b: Uuid)
    requires UuidText(a) == UuidText(b)
    ensures a == b
  {
    hide Dashed, Hex, Power;
    DashedInjective(Hex(a, ""), Hex(b, ""));
    HexLimit();
    HexInjective(a, "", b, "");
  }

  lemma HexLimit()
    ensures Power(16, 32) == 0x1_0000_0000_0000_0000_0000_0000_0000_0000
  {
    assert Power(16, 4) == 0x1_0000 by {
      assert Power(16, 2) == 0x100;
    }
    assert Power(16, 8) == 0x1_0000_0000 by {
      assert Power(16, 6) == 0x100_0000;
    }
    assert Power(16, 12) == 0x1_0000_0000_0000 by {
      assert Power(16, 10) == 0x100_0000_0000;
    }
    assert Power(16, 16) == 0x1_0000_0000_0000_0000 by {
      assert Power(16, 14) == 0x100_0000_0000_0000;
    }
    assert Power(16, 20) == 0x1_0000_0000_0000_0000_0000 by {
      assert Power(16, 18) == 0x100_0000_0000_0000_0000;
    }
    assert Power(16, 24) == 0x1_0000_0000_0000_0000_0000_0000 by {
      assert Power(16, 22) == 0x100_0000_0000_0000_0000_0000;
    }
    assert Power(16, 28) == 0x1_0000_0000_0000_0000_0000_0000_0000 by {
      assert Power(16, 26) == 0x100_0000_0000_0000_0000_0000_0000;
    }
    assert Power(16, 30) == 0x100_0000_0000_0000_0000_0000_0000_0000;
  }

  function StatusText(s: TaskStatus): string {
    match s
    case TODO => "TODO"
    case IN_PROGRESS => "IN_PROGRESS"
    case IN_REVIEW => "IN_REVIEW"
    case DONE => "DONE"
  }

  function PriorityText(p: TaskPriority): string {
    match p
    case LOW => "LOW"
    case MEDIUM => "MEDIUM"
    case HIGH => "HIGH"
    case URGENT => "URGENT"
  }

  /** A JSON string or `null`; every text printed here is plain ASCII without quotes. */
  function Quoted(s: Option<string>): (r: string)
    ensures s.None? || Lacks(s.value, ',') ==> Lacks(r, ',')
  {
    match s
    case None => "null"
    case Some(text) => "\"" + text + "\""
  }

  lemma QuotedInjective(a: Option<string>, b: Option<string>)
    requires Quoted(a) == Quoted(b)
    ensures a == b
  {
    assert Quoted(a)[0] == Quoted(b)[0];
    if a.Some? {
      assert a.value == Quoted(a)[1..|Quoted(a)| - 1];
      assert b.value == Quoted(b)[1..|Quoted(b)| - 1];
    }
  }

  // ---------------------------------------------------------------- the canonical query

  predicate BoundRepresentable(d: Option<Datetime>)
    requires AwareBound(d)
  {
    d.Some? ==> Representable(d.value.Instant())
  }

  /** The queries whose key can be printed; on any other `astimezone` raises OverflowError. */
  predicate Printable(q: Query) {
    BoundRepresentable(q.filters.dueFrom) && BoundRepresentable(q.filters.dueTo)
  }

  /** A bound whose UTC reading falls before year 1 or after year 9999, told from its wall clock and offset. */
  predicate LeavesCalendar(d: Option<Datetime>) {
    && d.Some? && d.value.Aware()
    && (d.value.wall < d.value.offset.value || d.value.wall - d.value.offset.value >= CALENDAR_END)
  }

  /** A key can be printed exactly when neither bound leaves the calendar, which only a bound within a day of its edges can. */
  lemma PrintableExactly(q: Query)
    ensures Printable(q) <==> !LeavesCalendar(q.filters.dueFrom) && !LeavesCalendar(q.filters.dueTo)
    ensures LeavesCalendar(q.filters.dueFrom) ==> NearTheEdge(q.filters.dueFrom.value)
    ensures LeavesCalendar(q.filters.dueTo) ==> NearTheEdge(q.filters.dueTo.value)
  {
    hide Representable;
    if q.filters.dueFrom.Some? {
      RepresentableExactly(q.filters.dueFrom.value.Instant());
    }
    if q.filters.dueTo.Some? {
      RepresentableExactly(q.filters.dueTo.value.Instant());
    }
  }

  predicate NearTheEdge(d: Datetime) {
    d.wall < MICROS_PER_DAY || d.wall >= CALENDAR_END - MICROS_PER_DAY
  }

  /** Midnight of 1 January of year 1, one hour east of UTC: the validators take it, and no key can be printed. */
  const EDGE_QUERY: Query :=
    Query(1, 1, TaskFilters(None, None, None, false, None, Some(Datetime(0, Some(3600 * MICROS_PER_SECOND))), None))

  lemma EdgeQueryOverflows()
    ensures Accepted(EDGE_QUERY.filters) && !Printable(EDGE_QUERY)
  {
    PrintableExactly(EDGE_QUERY);
  }

  function UuidField(id: Option<Uuid>): (s: string)
    ensures Lacks(s, ',')
  {
    Quoted(if id.None? then None else Some(UuidText(id.value)))
  }

  /** `_normalize_datetime`, quoted. */
  function BoundField(d: Option<Datetime>): (s: string)
    requires AwareBound(d) && BoundRepresentable(d)
    ensures Lacks(s, ',')
  {
    Quoted(if d.None? then None else Some(IsoUtc(d.value.Instant())))
  }

  function PriorityField(p: Option<TaskPriority>): (s: string)
    ensures Lacks(s, ',')
  {
    Quoted(if p.None? then None else Some(PriorityText(p.value)))
  }

  function StatusField(s: Option<TaskStatus>): (r: string)
    ensures Lacks(r, ',')
  {
    Quoted(if s.None? then None else Some(StatusText(s.value)))
  }

  function Member(name: string, value: string): (s: string)
    requires Lacks(name, ',') && Lacks(value, ',')
    ensures Lacks(s, ',')
  {
    ("\"" + name + "\":") + value
  }

  lemma MemberInjective(name: string, x: string, y: string)
    requires Lacks(name, ',') && Lacks(x, ',') && Lacks(y, ',')
    requires Member(name, x) == Member(name, y)
    ensures x == y
  {
    CutAt("\"" + name + "\":", x, "\"" + name + "\":", y);
  }

  function BoolText(b: bool): (s: string)
    ensures Lacks(s, ',')
  {
    if b then "true" else "false"
  }

  function FirstMembers(q: Query): (m: seq<string>)
    requires Printable(q)
    ensures |m| == 4 && forall i :: 0 <= i < 4 ==> Lacks(m[i], ',')
  {
    [ Member("assignee_id", UuidField(q.filters.assigneeId)),
      Member("created_by", UuidField(q.filters.createdBy)),
      Member("due_from", BoundField(q.filters.dueFrom)),
      Member("due_to", BoundField(q.filters.dueTo)) ]
  }

  function MiddleMembers(q: Query): (m: seq<string>)
    ensures |m| == 2 && forall i :: 0 <= i < 2 ==> Lacks(m[i], ',')
  {
    [ Member("page", Decimal(q.page)), Member("page_size", Decimal(q.pageSize)) ]
  }

  function LastMembers(q: Query): (m: seq<string>)
    ensures |m| == 3 && forall i :: 0 <= i < 3 ==> Lacks(m[i], ',')
  {
    [ Member("priority", PriorityField(q.filters.priority)),
      Member("status", StatusField(q.filters.status)),
      Member("unassigned", BoolText(q.filters.unassigned)) ]
  }

  /** The nine members in key order; none contains the comma that separates them. */
  function Members(q: Query): (m: seq<string>)
    requires Printable(q)
    ensures |m| == 9 && forall i :: 0 <= i < 9 ==> Lacks(m[i], ',')
  {
    FirstMembers(q) + (MiddleMembers(q) + LastMembers(q))
  }

  /** `json.dumps` with sorted keys and the separators "," and ":". */
  function Canonical(q: Query): string
    requires Printable(q)
  {
    "{" + Join(Members(q), ',') + "}"
  }

  lemma UuidFieldInjective(a: Option<Uuid>, b: Option<Uuid>)
    requires UuidField(a) == UuidField(b)
    ensures a == b
  {
    QuotedInjective(if a.None? then None else Some(UuidText(a.value)), if b.None? then None else Some(UuidText(b.value)));
    if a.Some? {
      UuidTextInjective(a.value, b.value);
    }
  }

  lemma BoundFieldInjective(a: Option<Datetime>, b: Option<Datetime>)
    requires AwareBound(a) && AwareBound(b) && BoundRepresentable(a) && BoundRepresentable(b)
    ensures BoundField(a) == BoundField(b) <==> SameBound(a, b)
  {
    if BoundField(a) == BoundField(b) {
      QuotedInjective(if a.None? then None else Some(IsoUtc(a.value.Instant())),
                      if b.None? then None else Some(IsoUtc(b.value.Instant())));
      if a.Some? {
        IsoUtcInjective(a.value.Instant(), b.value.Instant());
      }
    }
  }

  lemma PriorityFieldInjective(a: Option<TaskPriority>, b: Option<TaskPriority>)
    requires PriorityField(a) == PriorityField(b)
    ensures a == b
  {
    QuotedInjective(if a.None? then None else Some(PriorityText(a.value)),
                    if b.None? then None else Some(PriorityText(b.value)));
    if a.Some? {
      assert PriorityText(a.value)[0] == PriorityText(b.value)[0];
    }
  }

  lemma StatusFieldInjective(a: Option<TaskStatus>, b: Option<TaskStatus>)
    requires StatusField(a) == StatusField(b)
    ensures a == b
  {
    QuotedInjective(if a.None? then None else Some(StatusText(a.value)),
                    if b.None? then None else Some(StatusText(b.value)));
    if a.Some? {
      assert |StatusText(a.value)| == |StatusText(b.value)|;
      assert StatusText(a.value)[0] == StatusText(b.value)[0];
    }
  }

  lemma MembersInjective(q: Query, r: Query)
    requires Printable(q) && Printable(r) && Members(q) == Members(r)
    ensures SameQuery(q, r)
  {
    var f, g := q.filters, r.filters;
    assert FirstMembers(q) == Members(q)[..4] && FirstMembers(r) == Members(r)[..4];
    assert MiddleMembers(q) == Members(q)[4..6] && MiddleMembers(r) == Members(r)[4..6];
    assert LastMembers(q) == Members(q)[6..] && LastMembers(r) == Members(r)[6..];
    assert forall i :: 0 <= i < 4 ==> FirstMembers(q)[i] == FirstMembers(r)[i];
    assert forall i :: 0 <= i < 2 ==> MiddleMembers(q)[i] == MiddleMembers(r)[i];
    assert forall i :: 0 <= i < 3 ==> LastMembers(q)[i] == LastMembers(r)[i];
    MemberInjective("assignee_id", UuidField(f.assigneeId), UuidField(g.assigneeId));
    UuidFieldInjective(f.assigneeId, g.assigneeId);
    MemberInjective("created_by", UuidField(f.createdBy), UuidField(g.createdBy));
    UuidFieldInjective(f.createdBy, g.createdBy);
    MemberInjective("due_from", BoundField(f.dueFrom), BoundField(g.dueFrom));
    BoundFieldInjective(f.dueFrom, g.dueFrom);
    MemberInjective("due_to", BoundField(f.dueTo), BoundField(g.dueTo));
    BoundFieldInjective(f.dueTo, g.dueTo);
    MemberInjective("page", Decimal(q.page), Decimal(r.page));
    DecimalInjective(q.page, r.page);
    MemberInjective("page_size", Decimal(q.pageSize), Decimal(r.pageSize));
    DecimalInjective(q.pageSize, r.pageSize);
    MemberInjective("priority", PriorityField(f.priority), PriorityField(g.priority));
    PriorityFieldInjective(f.priority, g.priority);
    MemberInjective("status", StatusField(f.status), StatusField(g.status));
    StatusFieldInjective(f.status, g.status);
    MemberInjective("unassigned", BoolText(f.unassigned), BoolText(g.unassigned));
    assert BoolText(f.unassigned)[0] == BoolText(g.unassigned)[0];
  }

  /** The printed query is a faithful name of the query: equal texts exactly for equal queries, bounds compared as instants. */
  lemma CanonicalFaithful(q: Query, r: Query)
    requires Printable(q) && Printable(r)
    ensures Canonical(q) == Canonical(r) <==> SameQuery(q, r)
  {
    if Canonical(q) == Canonical(r) {
      var a, b := Join(Members(q), ','), Join(Members(r), ',');
      assert a == Canonical(q)[1..|Canonical(q)| - 1] && b == Canonical(r)[1..|Canonical(r)| - 1];
      JoinInjective(Members(q), Members(r), ',');
      MembersInjective(q, r);
    }
    if SameQuery(q, r) {
      SameQuerySameMembers(q, r);
    }
  }

  lemma SameQuerySameMembers(q: Query, r: Query)
    requires Printable(q) && Printable(r) && SameQuery(q, r)
    ensures Members(q) == Members(r)
  {
  }

  // ---------------------------------------------------------------- the two kinds of key

  function ProjectPrefix(projectId: Uuid): string {
    KEY_PREFIX + ":" + UuidText(projectId) + ":tasks:list:"
  }

  function VersionKey(projectId: Uuid): string {
    ProjectPrefix(projectId) + "version"
  }

  function Fingerprint(digest: Digest, q: Query): string
    requires Printable(q)
  {
    digest(Canonical(q))
  }

  function VersionedName(version: string, fingerprint: string): string {
    "v" + (version + [':'] + fingerprint)
  }

  /** `_response_key`; `None` when printing a bound raises OverflowError. */
  function ResponseKey(digest: Digest, projectId: Uuid, version: string, q: Query): (k: Option<string>)
    ensures k.Some? <==> Printable(q)
  {
    if Printable(q) then Some(ProjectPrefix(projectId) + VersionedName(version, Fingerprint(digest, q))) else None
  }

  lemma PrefixesAgree(p: Uuid, x: string, r: Uuid, y: string)
    requires ProjectPrefix(p) + x == ProjectPrefix(r) + y
    ensures p == r && x == y
  {
    CutAt(ProjectPrefix(p), x, ProjectPrefix(r), y);
    CutAt(KEY_PREFIX + ":" + UuidText(p), ":tasks:list:", KEY_PREFIX + ":" + UuidText(r), ":tasks:list:");
    CutAt(KEY_PREFIX + ":", UuidText(p), KEY_PREFIX + ":", UuidText(r));
    UuidTextInjective(p, r);
  }

  lemma VersionKeysDistinct(p: Uuid, r: Uuid)
    requires VersionKey(p) == VersionKey(r)
    ensures p == r
  {
    PrefixesAgree(p, "version", r, "version");
  }

  /** INCR on a version key can never hit a stored page, whatever the digest and the version text. */
  lemma ResponseKeyIsNoVersionKey(digest: Digest, p: Uuid, version: string, q: Query, other: Uuid)
    requires Printable(q)
    ensures ResponseKey(digest, p, version, q) != Some(VersionKey(other))
  {
    var rest := VersionedName(version, Fingerprint(digest, q));
    assert rest[1 + |version|] == ':' && Lacks("version", ':');
    if ProjectPrefix(p) + rest == ProjectPrefix(other) + "version" {
      PrefixesAgree(p, rest, other, "version");
    }
  }

  lemma VersionedNameInjective(m: nat, x: string, n: nat, y: string)
    requires VersionedName(Decimal(m), x) == VersionedName(Decimal(n), y)
    ensures m == n && x == y
  {
    CutAt("v", Decimal(m) + [':'] + x, "v", Decimal(n) + [':'] + y);
    SplitUnique(Decimal(m), x, Decimal(n), y, ':');
    DecimalInjective(m, n);
  }

  /**
   Two listings share a response key exactly when project, version, page, page size and filter agree, the due
   bounds compared as instants. The one assumption is that SHA-256 does not collide on these two queries.
   */
  lemma ResponseKeySound(digest: Digest, p: Uuid, m: nat, q: Query, r: Uuid, n: nat, s: Query)
    requires Printable(q) && Printable(s)
    requires digest(Canonical(q)) == digest(Canonical(s)) ==> Canonical(q) == Canonical(s)
    ensures ResponseKey(digest, p, Decimal(m), q) == ResponseKey(digest, r, Decimal(n), s) <==>
            p == r && m == n && SameQuery(q, s)
  {
    CanonicalFaithful(q, s);
    if ResponseKey(digest, p, Decimal(m), q) == ResponseKey(digest, r, Decimal(n), s) {
      PrefixesAgree(p, VersionedName(Decimal(m), Fingerprint(digest, q)), r, VersionedName(Decimal(n), Fingerprint(digest, s)));
      VersionedNameInjective(m, Fingerprint(digest, q), n, Fingerprint(digest, s));
    }
  }

  /** Hence listings that share a key have the same answer on every database. */
  lemma SharedKeySharedAnswer(digest: Digest, p: Uuid, m: nat, q: Query, r: Uuid, n: nat, s: Query, tasks: TaskTable)
    requires Printable(q) && Printable(s)
    requires digest(Canonical(q)) == digest(Canonical(s)) ==> Canonical(q) == Canonical(s)
    requires ResponseKey(digest, p, Decimal(m), q) == ResponseKey(digest, r, Decimal(n), s)
    ensures Answer(tasks, p, q) == Answer(tasks, r, s)
  {
    ResponseKeySound(digest, p, m, q, r, n, s);
    StatementsDependOn(tasks, tasks, p, q, s);
  }

  /** What is assumed of SHA-256: among the given, finitely many queries no two with different texts share a digest. */
  ghost predicate CollisionFree(digest: Digest, queries: set<Query>) {
    forall q: Query, r: Query ::
      q in queries && r in queries && Printable(q) && Printable(r) && digest(Canonical(q)) == digest(Canonical(r)) ==>
        Canonical(q) == Canonical(r)
  }
}
