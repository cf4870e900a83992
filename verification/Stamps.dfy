/** A target's definition and the stamp computed from it (stamp.go). */
module Stamps {
  import opened Wrappers
  import opened Bytes
  import opened Quoting

  datatype Source = Config | Admin

  datatype UserField = UserField(header: Text, caption: Text, prefix: Text)

  const PROVIDER_TOKEN: Text := Ascii("provider_token")
  const STATIC: Text := Ascii("static")
  const PER_USER: Text := Ascii("per_user")

  datatype Target = Target(
    name: Text,
    displayName: Text,
    url: Text,
    mode: Text,
    staticHeaders: map<Text, Text>,
    userFields: seq<UserField>,
    allowedGroups: seq<Text>,
    resource: Text,
    source: Source,
    generation: Text)
  {
    predicate FromAdmin() { source == Admin }

    // A config target ignores whatever generation it carries.
    function EffectiveGeneration(): Text { if FromAdmin() then generation else [] }

    predicate Admits(groups: seq<Text>) { GroupsAdmit(allowedGroups, groups) }
  }

  // With no allowed groups anyone may authorize, otherwise someone in one of them.
  predicate GroupsAdmit(allowed: seq<Text>, groups: seq<Text>) {
    allowed == [] || exists g :: g in groups && g in allowed
  }

  lemma GroupsInCommon(allowed: seq<Text>, groups: seq<Text>)
    ensures GroupsAdmit(allowed, groups) <==> allowed == [] || (set g | g in groups) * (set g | g in allowed) != {}
  {
    var both := (set g | g in groups) * (set g | g in allowed);
    if g :| g in both { assert g in groups && g in allowed; }
    if g :| g in groups && g in allowed { assert g in both; }
  }

  // What decides where a credential held for a target goes: all that a stamp encodes.
  datatype Core = Core(name: Text, url: Text, mode: Text, fields: seq<(Text, Text)>, generation: Text)

  function FieldPairs(fields: seq<UserField>): (pairs: seq<(Text, Text)>)
    ensures |pairs| == |fields|
  {
    seq(|fields|, i requires 0 <= i < |fields| => (fields[i].header, fields[i].prefix))
  }

  function CoreOf(t: Target): Core {
    Core(t.name, t.url, t.mode, FieldPairs(t.userFields), t.EffectiveGeneration())
  }

  // The stamp, as the protocol modules use it. What is stored is its string, which
  // `StampStringsAgreeExactly` shows to say neither more nor less.
  datatype Stamp = Stamp(source: Source, core: Core)
  {
    predicate IsAdmin() { source == Admin }
  }

  function StampOf(t: Target): Stamp { Stamp(t.source, CoreOf(t)) }

  // ---------- the encoding ----------

  const FORMAT: Text := Itoa(1)

  function FieldParts(pairs: seq<(Text, Text)>): seq<Text> {
    if pairs == [] then [] else [Quote(pairs[0].0), Quote(pairs[0].1)] + FieldParts(pairs[1..])
  }

  function HeadParts(c: Core): seq<Text> {
    [FORMAT, Quote(c.name), Quote(c.url), Quote(c.mode), Itoa(|c.fields|)]
  }

  function Preimage(c: Core): Text {
    Join(HeadParts(c) + FieldParts(c.fields) + [Quote(c.generation)])
  }

  // SHA-256, taken to be injective.
  datatype Digest = Sha256(preimage: Text)

  // stampPrefix(source), followed by the digest in hex.
  datatype StampString = StampString(prefix: Text, digest: Digest)

  function StampPrefix(source: Source): Text {
    match source case Config => Ascii("config:") case Admin => Ascii("admin:")
  }

  function StampStringOf(t: Target): StampString {
    StampString(StampPrefix(t.source), Sha256(Preimage(CoreOf(t))))
  }

  lemma FieldPartsSnoc(pairs: seq<(Text, Text)>, last: (Text, Text))
    ensures FieldParts(pairs + [last]) == FieldParts(pairs) + [Quote(last.0), Quote(last.1)]
  {
    if pairs == [] {
      assert pairs + [last] == [last];
    } else {
      assert (pairs + [last])[1..] == pairs[1..] + [last];
      FieldPartsSnoc(pairs[1..], last);
    }
  }

  method FieldPartsOf(pairs: seq<(Text, Text)>, head: seq<Text>) returns (parts: seq<Text>)
    ensures parts == head + FieldParts(pairs)
  {
    parts := head;
    for i := 0 to |pairs|
      invariant parts == head + FieldParts(pairs[..i])
    {
      FieldPartsSnoc(pairs[..i], pairs[i]);
      assert pairs[..i] + [pairs[i]] == pairs[..i + 1];
      parts := parts + [Quote(pairs[i].0), Quote(pairs[i].1)];
    }
    assert pairs[..|pairs|] == pairs;
  }

  // Target.Stamp builds the list of parts in a loop before joining and hashing.
  method ComputeStamp(t: Target) returns (s: StampString)
    ensures s == StampStringOf(t)
  {
    var parts := [FORMAT, Quote(t.name), Quote(t.url), Quote(t.mode), Itoa(|t.userFields|)];
    parts := FieldPartsOf(FieldPairs(t.userFields), parts);
    var generation := [];
    if t.FromAdmin() {
      generation := t.generation;
    }
    parts := parts + [Quote(generation)];
    s := StampString(StampPrefix(t.source), Sha256(Join(parts)));
  }

  // ---------- the decoder ----------

  function Skip(prefix: Text, t: Text): Option<Text> {
    if prefix <= t then Some(t[|prefix|..]) else None
  }

  function ReadSpaceQuoted(t: Text): Option<(Text, Text)> {
    if t == [] || t[0] != SPACE then None else ReadQuoted(t[1..])
  }

  function ReadPairs(n: nat, t: Text): Option<(seq<(Text, Text)>, Text)> {
    if n == 0 then Some(([], t))
    else
      match ReadSpaceQuoted(t)
      case None => None
      case Some((header, t1)) =>
        match ReadSpaceQuoted(t1)
        case None => None
        case Some((prefix, t2)) =>
          match ReadPairs(n - 1, t2)
          case None => None
          case Some((more, rest)) => Some(([(header, prefix)] + more, rest))
  }

  // Everything after the header count.
  function ReadTail(name: Text, url: Text, mode: Text, n: nat, t: Text): Option<Core> {
    match ReadPairs(n, t)
    case None => None
    case Some((pairs, t1)) =>
      match ReadSpaceQuoted(t1)
      case None => None
      case Some((generation, rest)) =>
        if rest == [] then Some(Core(name, url, mode, pairs, generation)) else None
  }

  function ReadFromCount(name: Text, url: Text, mode: Text, t: Text): Option<Core> {
    match Skip([SPACE], t)
    case None => None
    case Some(t1) => var (n, t2) := ReadDigits(t1, 0); ReadTail(name, url, mode, n, t2)
  }

  function Decode(t: Text): Option<Core> {
    match Skip(FORMAT, t)
    case None => None
    case Some(t0) =>
      match ReadSpaceQuoted(t0)
      case None => None
      case Some((name, t1)) =>
        match ReadSpaceQuoted(t1)
        case None => None
        case Some((url, t2)) =>
          match ReadSpaceQuoted(t2)
          case None => None
          case Some((mode, t3)) => ReadFromCount(name, url, mode, t3)
  }

  // What the parts after the count look like once joined: each is preceded by a space.
  function Spaced(parts: seq<Text>): Text {
    if parts == [] then [] else [SPACE] + parts[0] + Spaced(parts[1..])
  }

  lemma {:induction false} JoinIsSpaced(first: Text, rest: seq<Text>)
    ensures Join([first] + rest) == first + Spaced(rest)
    decreases |rest|
  {
    if rest == [] {
      assert [first] + rest == [first];
    } else {
      JoinCons(first, rest);
      assert rest == [rest[0]] + rest[1..];
      JoinIsSpaced(rest[0], rest[1..]);
    }
  }

  lemma SpacedOne(p: Text)
    ensures Spaced([p]) == [SPACE] + p
  {
    assert [p][1..] == [];
  }

  lemma {:induction false} SpacedConcat(a: seq<Text>, b: seq<Text>)
    ensures Spaced(a + b) == Spaced(a) + Spaced(b)
  {
    if a == [] {
      assert a + b == b;
    } else {
      assert (a + b)[1..] == a[1..] + b;
      SpacedConcat(a[1..], b);
    }
  }

  lemma ReadSpaceQuotedInverts(s: Text, rest: Text)
    ensures ReadSpaceQuoted([SPACE] + Quote(s) + rest) == Some((s, rest))
  {
    assert ([SPACE] + Quote(s) + rest)[1..] == Quote(s) + rest;
    ReadQuotedInvertsQuote(s, rest);
  }

  lemma {:induction false} ReadPairsInverts(pairs: seq<(Text, Text)>, rest: Text)
    ensures ReadPairs(|pairs|, Spaced(FieldParts(pairs)) + rest) == Some((pairs, rest))
  {
    if pairs == [] {
      assert Spaced(FieldParts(pairs)) + rest == rest;
    } else {
      var a, b, more := Quote(pairs[0].0), Quote(pairs[0].1), FieldParts(pairs[1..]);
      assert ([a, b] + more)[1..] == [b] + more && ([b] + more)[1..] == more;
      var t := Spaced(more) + rest;
      assert Spaced(FieldParts(pairs)) + rest == [SPACE] + a + ([SPACE] + b + t);
      ReadSpaceQuotedInverts(pairs[0].0, [SPACE] + b + t);
      ReadSpaceQuotedInverts(pairs[0].1, t);
      ReadPairsInverts(pairs[1..], rest);
      assert [pairs[0]] + pairs[1..] == pairs;
    }
  }

  lemma ReadTailInverts(c: Core)
    ensures ReadTail(c.name, c.url, c.mode, |c.fields|,
                     Spaced(FieldParts(c.fields)) + Spaced([Quote(c.generation)])) == Some(c)
  {
    var last := Spaced([Quote(c.generation)]);
    ReadPairsInverts(c.fields, last);
    SpacedOne(Quote(c.generation));
    assert last == [SPACE] + Quote(c.generation) + [];
    ReadSpaceQuotedInverts(c.generation, []);
  }

  lemma SkipInverts(prefix: Text, t: Text)
    ensures Skip(prefix, prefix + t) == Some(t)
  {
  }

  /** The pre-hash string can be read in one way only: the decoder recovers the name, URL,
      mode, the whole header and prefix list and the generation, whatever bytes they hold
      and however long the list is. */
  lemma DecodeInvertsPreimage(c: Core)
    ensures Decode(Preimage(c)) == Some(c)
  {
    var rest := [Itoa(|c.fields|)] + FieldParts(c.fields) + [Quote(c.generation)];
    var p := [Quote(c.name), Quote(c.url), Quote(c.mode)] + rest;
    assert HeadParts(c) + FieldParts(c.fields) + [Quote(c.generation)] == [FORMAT] + p;
    JoinIsSpaced(FORMAT, p);
    SkipInverts(FORMAT, Spaced(p));
    SpacedStep(p, 0, c.name);
    SpacedStep(p, 1, c.url);
    SpacedStep(p, 2, c.mode);
    assert p[0..] == p && p[3..] == rest;
    ReadFromCountInverts(c);
  }

  lemma ReadFromCountInverts(c: Core)
    ensures ReadFromCount(c.name, c.url, c.mode,
              Spaced([Itoa(|c.fields|)] + FieldParts(c.fields) + [Quote(c.generation)])) == Some(c)
  {
    var n, fields, last := Itoa(|c.fields|), FieldParts(c.fields), [Quote(c.generation)];
    var tail := Spaced(fields) + Spaced(last);
    assert [n] + fields + last == [n] + (fields + last);
    SpacedConcat([n], fields + last);
    SpacedConcat(fields, last);
    SpacedOne(n);
    assert ([SPACE] + n) + tail == [SPACE] + (n + tail);
    SkipInverts([SPACE], n + tail);
    DigitsEndAtTail(c);
    ReadTailInverts(c);
  }

  lemma SpacedStep(p: seq<Text>, i: nat, s: Text)
    requires i < |p| && p[i] == Quote(s)
    ensures ReadSpaceQuoted(Spaced(p[i..])) == Some((s, Spaced(p[i + 1..])))
  {
    assert p[i..][1..] == p[i + 1..];
    ReadSpaceQuotedInverts(s, Spaced(p[i + 1..]));
  }

  lemma DigitsEndAtTail(c: Core)
    ensures var tail := Spaced(FieldParts(c.fields)) + Spaced([Quote(c.generation)]);
            ReadDigits(Itoa(|c.fields|) + tail, 0) == (|c.fields|, tail)
  {
    var tail := Spaced(FieldParts(c.fields)) + Spaced([Quote(c.generation)]);
    assert tail[0] == SPACE;
    ReadDigitsInvertsItoa(|c.fields|, tail);
  }

  /** Two targets have one stamp string exactly when they agree on their source and on
      everything that decides where a stored credential is sent. Labels, display name,
      allowed groups, resource and static values play no part. */
  lemma StampStringsAgreeExactly(a: Target, b: Target)
    ensures StampStringOf(a) == StampStringOf(b) <==> StampOf(a) == StampOf(b)
  {
    DecodeInvertsPreimage(CoreOf(a));
    DecodeInvertsPreimage(CoreOf(b));
    assert |StampPrefix(Config)| == 7 && |StampPrefix(Admin)| == 6;
  }

  /** The same, field by field. */
  lemma StampsAgreeExactly(a: Target, b: Target)
    ensures StampOf(a) == StampOf(b) <==>
      && a.source == b.source && a.name == b.name && a.url == b.url && a.mode == b.mode
      && a.EffectiveGeneration() == b.EffectiveGeneration()
      && |a.userFields| == |b.userFields|
      && forall i :: 0 <= i < |a.userFields| ==>
        a.userFields[i].header == b.userFields[i].header && a.userFields[i].prefix == b.userFields[i].prefix
  {
    if |a.userFields| == |b.userFields| {
      var p, q := FieldPairs(a.userFields), FieldPairs(b.userFields);
      if forall i :: 0 <= i < |a.userFields| ==>
        a.userFields[i].header == b.userFields[i].header && a.userFields[i].prefix == b.userFields[i].prefix
      {
        assert p == q;
      } else {
        var i :| 0 <= i < |a.userFields| &&
          !(a.userFields[i].header == b.userFields[i].header && a.userFields[i].prefix == b.userFields[i].prefix);
        assert p[i] != q[i];
      }
    }
  }
}
