/** Which caller a request is counted against (ratelimit.go). */
module ClientKeys {
  import opened Wrappers
  import opened Bytes

  const COMMA: Byte := 0x2c

  // strings.TrimSpace, hostOnly, aggregate. What follows holds whatever they do.
  const TRIM: Text -> Text
  const HOST: Text -> Text
  const AGGREGATE: Text -> Text

  datatype Proxies = Proxies(hops: int, trusted: Text -> bool)

  // strings.Split on a comma.
  function Split(v: Text): (parts: seq<Text>)
    ensures parts != []
  {
    if v == [] then [[]]
    else
      var rest := Split(v[1..]);
      if v[0] == COMMA then [[]] + rest else [[v[0]] + rest[0]] + rest[1..]
  }

  function Entries(parts: seq<Text>): seq<Text> {
    if parts == [] then []
    else
      var p := TRIM(parts[|parts| - 1]);
      Entries(parts[..|parts| - 1]) + if p == [] then [] else [p]
  }

  function LineEntries(line: Text): seq<Text> { Entries(Split(line)) }

  // The entries of every X-Forwarded-For line, in order.
  function Chain(lines: seq<Text>): seq<Text> {
    if lines == [] then [] else Chain(lines[..|lines| - 1]) + LineEntries(lines[|lines| - 1])
  }

  function KeyFor(cfg: Proxies, peer: Text, lines: seq<Text>): Text {
    var chain := Chain(lines);
    if cfg.hops <= 0 || !cfg.trusted(HOST(peer)) || |chain| < cfg.hops then AGGREGATE(HOST(peer))
    else AGGREGATE(HOST(chain[|chain| - cfg.hops]))
  }

  method ClientKey(cfg: Proxies, peer: Text, lines: seq<Text>) returns (key: Text)
    ensures key == KeyFor(cfg, peer, lines)
  {
    if cfg.hops <= 0 || !cfg.trusted(HOST(peer)) {
      return AGGREGATE(HOST(peer));
    }
    var chain := [];
    for i := 0 to |lines|
      invariant chain == Chain(lines[..i])
    {
      var parts := Split(lines[i]);
      for j := 0 to |parts|
        invariant chain == Chain(lines[..i]) + Entries(parts[..j])
      {
        assert parts[..j + 1][..j] == parts[..j];
        var p := TRIM(parts[j]);
        if p != [] {
          chain := chain + [p];
        }
      }
      assert parts[..|parts|] == parts && lines[..i + 1][..i] == lines[..i];
    }
    assert lines[..|lines|] == lines;
    var idx := |chain| - cfg.hops;
    if idx < 0 || idx >= |chain| {
      return AGGREGATE(HOST(peer));
    }
    return AGGREGATE(HOST(chain[idx]));
  }

  lemma {:induction false} EntriesConcat(a: seq<Text>, b: seq<Text>)
    ensures Entries(a + b) == Entries(a) + Entries(b)
  {
    if b == [] {
      assert a + b == a;
    } else {
      assert (a + b)[..|a + b| - 1] == a + b[..|b| - 1];
      EntriesConcat(a, b[..|b| - 1]);
    }
  }

  lemma {:induction false} SplitConcat(a: Text, b: Text)
    ensures Split(a + [COMMA] + b) == Split(a) + Split(b)
  {
    if a == [] {
      assert ([] + [COMMA] + b)[1..] == b;
      assert a + [COMMA] + b == [COMMA] + b;
    } else {
      assert (a + [COMMA] + b)[1..] == a[1..] + [COMMA] + b;
      SplitConcat(a[1..], b);
    }
  }

  lemma {:induction false} ChainConcat(a: seq<Text>, b: seq<Text>)
    ensures Chain(a + b) == Chain(a) + Chain(b)
  {
    if b == [] {
      assert a + b == a;
    } else {
      var front, last := b[..|b| - 1], b[|b| - 1];
      assert front + [last] == b && (a + front) + [last] == a + b;
      ChainSnoc(a + front, last);
      ChainConcat(a, front);
      ChainSnoc(front, last);
      Regroup(Chain(a), Chain(front), LineEntries(last));
    }
  }

  lemma Regroup(a: seq<Text>, b: seq<Text>, c: seq<Text>)
    ensures (a + b) + c == a + (b + c)
  {
  }

  lemma ChainSnoc(lines: seq<Text>, last: Text)
    ensures Chain(lines + [last]) == Chain(lines) + LineEntries(last)
  {
    assert (lines + [last])[..|lines|] == lines;
  }

  lemma OneLine(line: Text)
    ensures Chain([line]) == LineEntries(line)
  {
    ChainSnoc([], line);
    assert [] + [line] == [line];
  }

  lemma MixedLine(front: Text, line: Text)
    ensures LineEntries(front + [COMMA] + line) == LineEntries(front) + LineEntries(line)
  {
    SplitConcat(front, line);
    EntriesConcat(Split(front), Split(line));
  }

  lemma ForgedChain(forged: seq<Text>, front: Text, line: Text, lines: seq<Text>)
    ensures Chain(forged + [front + [COMMA] + line] + lines)
         == Chain(forged) + LineEntries(front) + Chain([line] + lines)
  {
    var mixed := front + [COMMA] + line;
    ChainConcat(forged + [mixed], lines);
    ChainSnoc(forged, mixed);
    ChainConcat([line], lines);
    OneLine(line);
    MixedLine(front, line);
    Regroup(Chain(forged), LineEntries(front), LineEntries(line));
    Regroup(Chain(forged) + LineEntries(front), LineEntries(line), Chain(lines));
  }

  // The walk back from the right sees only the last entries.
  lemma SameTailSameKey(cfg: Proxies, peer: Text, a: seq<Text>, b: seq<Text>, more: seq<Text>)
    requires Chain(a) == more + Chain(b) && |Chain(b)| >= cfg.hops
    ensures KeyFor(cfg, peer, a) == KeyFor(cfg, peer, b)
  {
    var chain := Chain(b);
    if cfg.hops > 0 { assert (more + chain)[|more + chain| - cfg.hops] == chain[|chain| - cfg.hops]; }
  }

  /** A caller cannot move itself to another bucket. Whatever it sends, as lines of its own or
      in front of what the proxies append to its line, the key is that of what they wrote. */
  lemma ForgedEntriesMoveNothing(cfg: Proxies, peer: Text, forged: seq<Text>, front: Text, line: Text, lines: seq<Text>)
    requires |Chain([line] + lines)| >= cfg.hops
    ensures KeyFor(cfg, peer, forged + [front + [COMMA] + line] + lines) == KeyFor(cfg, peer, [line] + lines)
  {
    ForgedChain(forged, front, line, lines);
    SameTailSameKey(cfg, peer, forged + [front + [COMMA] + line] + lines, [line] + lines,
                    Chain(forged) + LineEntries(front));
  }

  // ---------- which entry it is ----------

  // One address, as a proxy writes it.
  predicate IsEntry(w: Text) { COMMA !in w && TRIM(w) != [] }

  // What a caller sent, with what each proxy on the way appended.
  function Appended(front: Text, wrote: seq<Text>): Text {
    if wrote == [] then front else Appended(front, wrote[..|wrote| - 1]) + [COMMA] + wrote[|wrote| - 1]
  }

  function Trimmed(wrote: seq<Text>): seq<Text> { seq(|wrote|, i requires 0 <= i < |wrote| => TRIM(wrote[i])) }

  lemma {:induction false} NoCommaNoSplit(v: Text)
    requires COMMA !in v
    ensures Split(v) == [v]
  {
    if v != [] {
      NoCommaNoSplit(v[1..]);
      assert [v[0]] + v[1..] == v;
    }
  }

  lemma OneEntry(w: Text)
    requires IsEntry(w)
    ensures LineEntries(w) == [TRIM(w)]
  {
    NoCommaNoSplit(w);
    assert [w][..0] == [];
    assert Entries([]) + [TRIM(w)] == [TRIM(w)];
  }

  lemma {:induction false} AppendedEntries(front: Text, wrote: seq<Text>)
    requires forall w :: w in wrote ==> IsEntry(w)
    ensures LineEntries(Appended(front, wrote)) == LineEntries(front) + Trimmed(wrote)
  {
    if wrote != [] {
      var n := |wrote| - 1;
      AppendedEntries(front, wrote[..n]);
      MixedLine(Appended(front, wrote[..n]), wrote[n]);
      OneEntry(wrote[n]);
      assert Trimmed(wrote) == Trimmed(wrote[..n]) + [TRIM(wrote[n])];
    }
  }

  /** Behind as many proxies as are trusted, the key is the address that the outermost of them saw,
      whatever the caller sent before it. A peer that is not a trusted proxy is its own key. */
  lemma TheOutermostProxysEntryIsTheKey(cfg: Proxies, peer: Text, forged: seq<Text>, front: Text, wrote: seq<Text>)
    requires |wrote| > 0 && cfg.hops == |wrote| && forall w :: w in wrote ==> IsEntry(w)
    ensures KeyFor(cfg, peer, forged + [Appended(front, wrote)]) ==
      if cfg.trusted(HOST(peer)) then AGGREGATE(HOST(TRIM(wrote[0]))) else AGGREGATE(HOST(peer))
  {
    ChainSnoc(forged, Appended(front, wrote));
    AppendedEntries(front, wrote);
    var chain := Chain(forged) + (LineEntries(front) + Trimmed(wrote));
    assert chain[|chain| - |wrote|] == Trimmed(wrote)[0];
  }

  lemma {:induction false} EntryToALine(lines: seq<Text>)
    requires forall w :: w in lines ==> IsEntry(w)
    ensures |Chain(lines)| == |lines|
  {
    if lines != [] {
      EntryToALine(lines[..|lines| - 1]);
      OneEntry(lines[|lines| - 1]);
    }
  }

  /** With fewer entries than trusted proxies, or none trusted, nothing of the header is believed. */
  lemma TooFewEntriesAreNotBelieved(cfg: Proxies, peer: Text, lines: seq<Text>)
    requires cfg.hops <= 0 || (|lines| < cfg.hops && forall w :: w in lines ==> IsEntry(w))
    ensures KeyFor(cfg, peer, lines) == AGGREGATE(HOST(peer))
  {
    if cfg.hops > 0 { EntryToALine(lines); }
  }
}
