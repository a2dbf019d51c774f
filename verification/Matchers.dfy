/** translateMatchers: the accumulator loop that folds a rule's matchers into
    one match block, against a declarative reading of the matcher list. */
module Matchers {
  import opened Basics
  import opened Panel
  import opened Caddy

  // ----- what a matcher list means -----

  function PathPatterns(t: Matcher): seq<string> {
    match t
    case Path(ps) => ps
    case PathExact(vs) => vs
    case _ => []
  }

  function MethodNames(t: Matcher): seq<string> {
    if t.Method? then t.methods else []
  }

  /** The value the last regular-expression matcher on header `name` asks for. */
  function LastRegex(ms: seq<Matcher>, name: string): Option<string> {
    if ms == [] then None
    else
      var t := ms[|ms| - 1];
      if t.Header? && t.regex && t.name == name then Some(t.value) else LastRegex(ms[..|ms| - 1], name)
  }

  /** The host list of the last host_header matcher, the route's own domain without one. */
  function HostList(domain: string, ms: seq<Matcher>): seq<string> {
    if ms == [] then [domain]
    else
      var t := ms[|ms| - 1];
      if t.HostHeader? then t.hosts else HostList(domain, ms[..|ms| - 1])
  }

  ghost predicate PathMeans(ms: seq<Matcher>, v: Visit) {
    || (forall t :: t in ms ==> PathPatterns(t) == [])
    || (exists t, p :: t in ms && p in PathPatterns(t) && v.req.path(v.rewrites, p))
  }

  ghost predicate MethodMeans(ms: seq<Matcher>, v: Visit) {
    || (forall t :: t in ms ==> MethodNames(t) == [])
    || (exists t, n :: t in ms && n in MethodNames(t) && Upper(n) == v.req.verb)
  }

  /** One of the values listed for the header name is there. */
  ghost predicate HeaderListed(ms: seq<Matcher>, name: string, v: Visit) {
    exists u :: u in ms && u.Header? && !u.regex && u.name == name && v.req.header(name, u.value)
  }

  ghost predicate HeaderMeans(ms: seq<Matcher>, v: Visit) {
    forall t :: t in ms && t.Header? && !t.regex ==> HeaderListed(ms, t.name, v)
  }

  ghost predicate RegexMeans(ms: seq<Matcher>, v: Visit) {
    forall n :: LastRegex(ms, n).Some? ==> v.req.headerRegexp(n, LastRegex(ms, n).value)
  }

  /** One of the values listed for the query key is there. */
  ghost predicate QueryListed(ms: seq<Matcher>, key: string, v: Visit) {
    exists u :: u in ms && u.Query? && u.key == key && v.req.query(v.rewrites, key, u.wanted)
  }

  ghost predicate QueryMeans(ms: seq<Matcher>, v: Visit) {
    forall t :: t in ms && t.Query? ==> QueryListed(ms, t.key, v)
  }

  predicate InRanges(ranges: seq<string>, inside: string -> bool) {
    exists r :: r in ranges && inside(r)
  }

  ghost predicate RemoteMeans(ms: seq<Matcher>, v: Visit) {
    && ((exists t :: t in ms && t.RemoteIP? && !t.negate) ==>
          exists t :: t in ms && t.RemoteIP? && !t.negate && InRanges(t.ranges, v.req.remoteIP))
    && (forall t :: t in ms && t.RemoteIP? && t.negate ==> !InRanges(t.ranges, v.req.remoteIP))
  }

  ghost predicate HostMeans(domain: string, ms: seq<Matcher>, v: Visit) {
    var hosts := HostList(domain, ms);
    hosts == [] || exists h :: h in hosts && HostHits(h, v.req)
  }

  /** Matchers of one kind are alternatives, different kinds must all hold. */
  ghost predicate MatchersMean(domain: string, ms: seq<Matcher>, v: Visit) {
    && HostMeans(domain, ms, v)
    && PathMeans(ms, v)
    && MethodMeans(ms, v)
    && HeaderMeans(ms, v)
    && RegexMeans(ms, v)
    && QueryMeans(ms, v)
    && RemoteMeans(ms, v)
  }

  // ----- the translation -----

  function UpperAll(names: seq<string>): seq<string> {
    seq(|names|, i requires 0 <= i < |names| => Upper(names[i]))
  }

  function Append(m: map<string, seq<string>>, key: string, value: string): map<string, seq<string>> {
    m[key := (if key in m then m[key] else []) + [value]]
  }

  function RangesBlock(ranges: seq<string>): Match {
    ANY.(remoteIP := Some(ranges))
  }

  /** The block after one more well-formed matcher. */
  function Absorb(m: Match, t: Matcher): Match {
    match t
    case Path(ps) => m.(path := m.path + ps)
    case PathExact(vs) => m.(path := m.path + vs)
    case Method(names) => m.(verbs := m.verbs + UpperAll(names))
    case Header(n, x, regex) =>
      if regex then m.(headerRegexp := m.headerRegexp[n := x]) else m.(header := Append(m.header, n, x))
    case Query(n, x) => m.(query := Append(m.query, n, x))
    case RemoteIP(rs, negate) =>
      if negate then m.(nots := m.nots + [RangesBlock(rs)])
      else m.(remoteIP := Some((if m.remoteIP.Some? then m.remoteIP.value else []) + rs))
    case HostHeader(hs) => m.(host := hs)
    case Malformed => m
  }

  predicate WellFormed(ms: seq<Matcher>) {
    forall t :: t in ms ==> !t.Malformed?
  }

  function Fold(domain: string, ms: seq<Matcher>): Match {
    if ms == [] then ANY.(host := [domain]) else Absorb(Fold(domain, ms[..|ms| - 1]), ms[|ms| - 1])
  }

  function Translate(domain: string, ms: seq<Matcher>): Option<Match> {
    if WellFormed(ms) then Some(Fold(domain, ms)) else None
  }

  /** The loop of translateMatchers, with the host, path, method, header, query
      and negation accumulators it keeps. */
  method TranslateMatchers(domain: string, ms: seq<Matcher>) returns (r: Option<Match>)
    ensures r == Translate(domain, ms)
    ensures r.None? <==> Malformed in ms
  {
    var m := ANY.(host := [domain]);
    var nots: seq<Match> := [];
    var headerExact: map<string, seq<string>> := map[];
    var headerRegex: map<string, string> := map[];
    var queryMap: map<string, seq<string>> := map[];
    for i := 0 to |ms|
      invariant WellFormed(ms[..i])
      invariant m.(header := headerExact, headerRegexp := headerRegex, query := queryMap, nots := nots)
             == Fold(domain, ms[..i])
    {
      assert ms[..i + 1][..i] == ms[..i];
      match ms[i] {
        case Path(ps) => m := m.(path := m.path + ps);
        case PathExact(vs) => m := m.(path := m.path + vs);
        case Method(names) =>
          var upper := m.verbs;
          for k := 0 to |names|
            invariant upper == m.verbs + UpperAll(names[..k])
          {
            assert UpperAll(names[..k + 1]) == UpperAll(names[..k]) + [Upper(names[k])];
            upper := upper + [Upper(names[k])];
          }
          assert names[..|names|] == names;
          m := m.(verbs := upper);
        case Header(n, x, regex) =>
          if regex {
            headerRegex := headerRegex[n := x];
          } else {
            headerExact := Append(headerExact, n, x);
          }
        case Query(n, x) => queryMap := Append(queryMap, n, x);
        case RemoteIP(rs, negate) =>
          if negate {
            nots := nots + [RangesBlock(rs)];
          } else {
            m := m.(remoteIP := Some((if m.remoteIP.Some? then m.remoteIP.value else []) + rs));
          }
        case HostHeader(hs) => m := m.(host := hs);
        case Malformed =>
          assert ms[i] in ms;
          return None;
      }
    }
    assert ms[..|ms|] == ms;
    return Some(m.(header := headerExact, headerRegexp := headerRegex, query := queryMap, nots := nots));
  }

  // ----- the translation keeps the meaning -----

  // Each predicate says what one kind of field holds after the matchers `ms`.

  ghost predicate PathField(m: Match, ms: seq<Matcher>) {
    forall p :: p in m.path <==> exists t :: t in ms && p in PathPatterns(t)
  }

  ghost predicate VerbField(m: Match, ms: seq<Matcher>) {
    forall n :: n in m.verbs <==> exists t, x :: t in ms && x in MethodNames(t) && n == Upper(x)
  }

  ghost predicate HeaderField(m: Match, ms: seq<Matcher>) {
    && (forall n, x :: Header(n, x, false) in ms <==> n in m.header && x in m.header[n])
    && (forall n :: n in m.header ==> m.header[n] != [])
  }

  ghost predicate RegexField(m: Match, ms: seq<Matcher>) {
    forall n :: LastRegex(ms, n) == if n in m.headerRegexp then Some(m.headerRegexp[n]) else None
  }

  ghost predicate QueryField(m: Match, ms: seq<Matcher>) {
    && (forall n, x :: Query(n, x) in ms <==> n in m.query && x in m.query[n])
    && (forall n :: n in m.query ==> m.query[n] != [])
  }

  ghost predicate RemoteField(m: Match, ms: seq<Matcher>) {
    && (m.remoteIP.Some? <==> exists t :: t in ms && t.RemoteIP? && !t.negate)
    && (m.remoteIP.Some? ==>
          forall r :: r in m.remoteIP.value <==> exists t :: t in ms && t.RemoteIP? && !t.negate && r in t.ranges)
  }

  ghost predicate NotField(m: Match, ms: seq<Matcher>) {
    && (forall rs :: RemoteIP(rs, true) in ms ==> RangesBlock(rs) in m.nots)
    && (forall b :: b in m.nots ==> exists rs :: RemoteIP(rs, true) in ms && b == RangesBlock(rs))
  }

  ghost predicate Describes(m: Match, domain: string, ms: seq<Matcher>) {
    && m.host == HostList(domain, ms)
    && m.clientIP == None
    && PathField(m, ms)
    && VerbField(m, ms)
    && HeaderField(m, ms)
    && RegexField(m, ms)
    && QueryField(m, ms)
    && RemoteField(m, ms)
    && NotField(m, ms)
  }

  lemma UpperAllMembers(names: seq<string>)
    ensures forall n :: n in UpperAll(names) <==> exists x :: x in names && n == Upper(x)
  {
    forall n | n in UpperAll(names)
      ensures exists x :: x in names && n == Upper(x)
    {
      var i :| 0 <= i < |names| && UpperAll(names)[i] == n;
      assert names[i] in names && n == Upper(names[i]);
    }
    forall x | x in names
      ensures Upper(x) in UpperAll(names)
    {
      var i :| 0 <= i < |names| && names[i] == x;
      assert UpperAll(names)[i] == Upper(x);
    }
  }

  lemma AbsorbPath(m: Match, ms: seq<Matcher>, t: Matcher)
    requires PathField(m, ms)
    ensures PathField(Absorb(m, t), ms + [t])
  {
    assert forall p :: p in Absorb(m, t).path <==> p in m.path || p in PathPatterns(t);
  }

  lemma AbsorbVerbs(m: Match, ms: seq<Matcher>, t: Matcher)
    requires VerbField(m, ms)
    ensures VerbField(Absorb(m, t), ms + [t])
  {
    UpperAllMembers(MethodNames(t));
    assert forall n :: n in Absorb(m, t).verbs <==> n in m.verbs || n in UpperAll(MethodNames(t));
  }

  lemma AbsorbHeaders(m: Match, ms: seq<Matcher>, t: Matcher)
    requires HeaderField(m, ms)
    ensures HeaderField(Absorb(m, t), ms + [t])
  {
    var all := ms + [t];
    forall n, x
      ensures Header(n, x, false) in all <==> Header(n, x, false) in ms || t == Header(n, x, false)
    {}
  }

  lemma AbsorbRegex(m: Match, ms: seq<Matcher>, t: Matcher)
    requires RegexField(m, ms)
    ensures RegexField(Absorb(m, t), ms + [t])
  {
    assert (ms + [t])[..|ms|] == ms;
  }

  lemma AbsorbQuery(m: Match, ms: seq<Matcher>, t: Matcher)
    requires QueryField(m, ms)
    ensures QueryField(Absorb(m, t), ms + [t])
  {
    var all := ms + [t];
    forall n, x
      ensures Query(n, x) in all <==> Query(n, x) in ms || t == Query(n, x)
    {}
  }

  lemma AbsorbRemote(m: Match, ms: seq<Matcher>, t: Matcher)
    requires RemoteField(m, ms) && NotField(m, ms)
    ensures RemoteField(Absorb(m, t), ms + [t]) && NotField(Absorb(m, t), ms + [t])
  {
    var all := ms + [t];
    assert forall u :: u in all <==> u in ms || u == t;
  }

  lemma AbsorbHost(m: Match, domain: string, ms: seq<Matcher>, t: Matcher)
    requires m.host == HostList(domain, ms) && m.clientIP == None
    ensures Absorb(m, t).host == HostList(domain, ms + [t]) && Absorb(m, t).clientIP == None
  {
    assert (ms + [t])[..|ms|] == ms && (ms + [t])[|ms|] == t;
    assert HostList(domain, ms + [t]) == if t.HostHeader? then t.hosts else HostList(domain, ms);
    hide HostList;
  }

  lemma AbsorbDescribes(m: Match, domain: string, ms: seq<Matcher>, t: Matcher)
    requires Describes(m, domain, ms)
    ensures Describes(Absorb(m, t), domain, ms + [t])
  {
    hide PathField, VerbField, HeaderField, RegexField, QueryField, RemoteField, NotField, Absorb, HostList;
    AbsorbHost(m, domain, ms, t);
    AbsorbPath(m, ms, t);
    AbsorbVerbs(m, ms, t);
    AbsorbHeaders(m, ms, t);
    AbsorbRegex(m, ms, t);
    AbsorbQuery(m, ms, t);
    AbsorbRemote(m, ms, t);
  }

  lemma {:induction false} FoldDescribes(domain: string, ms: seq<Matcher>)
    requires WellFormed(ms)
    ensures Describes(Fold(domain, ms), domain, ms)
  {
    if ms == [] {
      assert Fold(domain, ms) == ANY.(host := [domain]);
    } else {
      hide Describes, Absorb;
      var init, t := ms[..|ms| - 1], ms[|ms| - 1];
      FoldDescribes(domain, init);
      AbsorbDescribes(Fold(domain, init), domain, init, t);
      assert init + [t] == ms;
    }
  }

  lemma PathFieldMeaning(m: Match, ms: seq<Matcher>, v: Visit)
    requires PathField(m, ms)
    ensures (m.path == [] || exists p :: p in m.path && v.req.path(v.rewrites, p)) <==> PathMeans(ms, v)
  {
    if m.path != [] {
      assert m.path[0] in m.path;
    }
    forall t | t in ms && PathPatterns(t) != []
      ensures m.path != []
    {
      assert PathPatterns(t)[0] in m.path;
    }
  }

  lemma VerbFieldMeaning(m: Match, ms: seq<Matcher>, v: Visit)
    requires VerbField(m, ms)
    ensures (m.verbs == [] || v.req.verb in m.verbs) <==> MethodMeans(ms, v)
  {
    if m.verbs != [] {
      assert m.verbs[0] in m.verbs;
    }
    forall t | t in ms && MethodNames(t) != []
      ensures m.verbs != []
    {
      assert MethodNames(t)[0] in MethodNames(t);
      assert Upper(MethodNames(t)[0]) in m.verbs;
    }
  }

  lemma HeaderFieldMeaning(m: Match, ms: seq<Matcher>, v: Visit)
    requires HeaderField(m, ms)
    ensures (forall n :: n in m.header ==> exists t :: t in m.header[n] && v.req.header(n, t)) <==> HeaderMeans(ms, v)
  {
    forall n | n in m.header
      ensures HeaderListed(ms, n, v) <==> exists t :: t in m.header[n] && v.req.header(n, t)
    {
      if t :| t in m.header[n] && v.req.header(n, t) {
        assert Header(n, t, false) in ms;
      }
      if u :| u in ms && u.Header? && !u.regex && u.name == n && v.req.header(n, u.value) {
        assert Header(n, u.value, false) in ms;
      }
    }
    hide HeaderListed;
    forall n | n in m.header
      ensures exists t :: t in ms && t.Header? && !t.regex && t.name == n
    {
      assert m.header[n][0] in m.header[n];
      assert Header(n, m.header[n][0], false) in ms;
    }
    forall t | t in ms && t.Header? && !t.regex
      ensures t.name in m.header
    {
      assert Header(t.name, t.value, false) in ms;
    }
  }

  lemma QueryFieldMeaning(m: Match, ms: seq<Matcher>, v: Visit)
    requires QueryField(m, ms)
    ensures (forall n :: n in m.query ==> exists t :: t in m.query[n] && v.req.query(v.rewrites, n, t))
            <==> QueryMeans(ms, v)
  {
    forall n | n in m.query
      ensures QueryListed(ms, n, v) <==> exists t :: t in m.query[n] && v.req.query(v.rewrites, n, t)
    {
      if t :| t in m.query[n] && v.req.query(v.rewrites, n, t) {
        assert Query(n, t) in ms;
      }
      if u :| u in ms && u.Query? && u.key == n && v.req.query(v.rewrites, n, u.wanted) {
        assert Query(n, u.wanted) in ms;
      }
    }
    hide QueryListed;
    forall n | n in m.query
      ensures exists t :: t in ms && t.Query? && t.key == n
    {
      assert m.query[n][0] in m.query[n];
      assert Query(n, m.query[n][0]) in ms;
    }
    forall t | t in ms && t.Query?
      ensures t.key in m.query
    {
      assert Query(t.key, t.wanted) in ms;
    }
  }

  lemma RangesBlockHits(rs: seq<string>, v: Visit)
    ensures Hits(RangesBlock(rs), v) <==> InRanges(rs, v.req.remoteIP)
  {
  }

  lemma RemoteFieldMeaning(m: Match, ms: seq<Matcher>, v: Visit)
    requires RemoteField(m, ms) && NotField(m, ms)
    ensures (m.remoteIP.Some? ==> exists r :: r in m.remoteIP.value && v.req.remoteIP(r))
         && (forall n :: n in m.nots ==> !Hits(n, v))
        <==> RemoteMeans(ms, v)
  {
    forall rs {
      RangesBlockHits(rs, v);
    }
    forall t | t in ms && t.RemoteIP? && t.negate
      ensures RangesBlock(t.ranges) in m.nots
    {
      assert RemoteIP(t.ranges, true) == t;
    }
    forall b | b in m.nots
      ensures exists t :: t in ms && t.RemoteIP? && t.negate && b == RangesBlock(t.ranges)
    {
      var rs :| RemoteIP(rs, true) in ms && b == RangesBlock(rs);
      var t := RemoteIP(rs, true);
      assert t in ms && t.RemoteIP? && t.negate && b == RangesBlock(t.ranges);
    }
  }

  /** translateMatchers refuses exactly the lists with an undecodable matcher,
      and the block it returns for any other list means what the list means. */
  lemma TranslationMeaning(domain: string, ms: seq<Matcher>, v: Visit)
    ensures Translate(domain, ms).None? <==> Malformed in ms
    ensures Translate(domain, ms).Some? ==> (Hits(Translate(domain, ms).value, v) <==> MatchersMean(domain, ms, v))
  {
    if WellFormed(ms) {
      var m := Fold(domain, ms);
      FoldDescribes(domain, ms);
      assert (forall n :: n in m.headerRegexp ==> v.req.headerRegexp(n, m.headerRegexp[n])) <==> RegexMeans(ms, v);
      hide Fold, PathField, VerbField, HeaderField, RegexField, QueryField, RemoteField, NotField;
      hide PathMeans, MethodMeans, HeaderMeans, RegexMeans, QueryMeans, RemoteMeans;
      PathFieldMeaning(m, ms, v);
      VerbFieldMeaning(m, ms, v);
      HeaderFieldMeaning(m, ms, v);
      QueryFieldMeaning(m, ms, v);
      RemoteFieldMeaning(m, ms, v);
    }
  }
}
