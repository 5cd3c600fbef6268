/**
 * The zig-zag run-length scheme that `WriteChannels.save` applies to every
 * block: the scanned values are cut into maximal runs, and each run is
 * written as an escape triple `[128, count, value]` or as literal bytes.
 * `Decode` is a reference decoder used only to state what the encoding
 * preserves; the program itself has none.
 */
module RunLength {
  import opened Common
  import opened Chunking

  /** The escape byte that opens a triple (`rleToken`). */
  const RleToken: byte := 128

  /** `count` consecutive copies of `value`. */
  datatype Run = Run(value: byte, count: nat)

  /** Every run is non-empty and its count fits the byte written for it. */
  predicate ValidRuns(rs: seq<Run>)
  {
    forall k :: 0 <= k < |rs| ==> 1 <= rs[k].count < 256
  }

  /** Neighbouring runs hold different values (the runs are maximal). */
  predicate Maximal(rs: seq<Run>)
  {
    forall k :: 0 < k < |rs| ==> rs[k - 1].value != rs[k].value
  }

  /** The values a sequence of runs stands for. */
  function Expand(rs: seq<Run>): seq<byte>
  {
    if rs == [] then [] else Repeat(rs[0].value, rs[0].count) + Expand(rs[1..])
  }

  /** One more value seen by the encoder: it lengthens the open run or opens a new one. */
  function Extend(rs: seq<Run>, x: byte): seq<Run>
  {
    if |rs| > 0 && rs[|rs| - 1].value == x
    then rs[..|rs| - 1] + [Run(x, rs[|rs| - 1].count + 1)]
    else rs + [Run(x, 1)]
  }

  /** The runs of `s`, grown value by value as the encoder's `prev`/`count` pair is. */
  function Runs(s: seq<byte>): seq<Run>
  {
    if s == [] then [] else Extend(Runs(s[..|s| - 1]), s[|s| - 1])
  }

  /** Reference decoder: a token opens a triple, any other byte is a literal. */
  function Decode(s: seq<byte>): Option<seq<byte>>
  {
    if s == [] then Some([])
    else if s[0] == RleToken then
      if |s| < 3 then None else Prepend(Repeat(s[2], s[1]), Decode(s[3..]))
    else Prepend([s[0]], Decode(s[1..]))
  }

  function Prepend(p: seq<byte>, o: Option<seq<byte>>): Option<seq<byte>>
  {
    match o
    case None => None
    case Some(t) => Some(p + t)
  }

  lemma PrependAssoc(a: seq<byte>, b: seq<byte>, o: Option<seq<byte>>)
    ensures Prepend(a, Prepend(b, o)) == Prepend(a + b, o)
  {
    match o
    case None =>
    case Some(t) => assert a + (b + t) == (a + b) + t;
  }

  /** Two pieces that decode one after the other decode together. */
  lemma Glue(p: seq<byte>, q: seq<byte>, t: seq<byte>, vp: seq<byte>, vq: seq<byte>)
    requires Decode(p + (q + t)) == Prepend(vp, Decode(q + t))
    requires Decode(q + t) == Prepend(vq, Decode(t))
    ensures Decode((p + q) + t) == Prepend(vp + vq, Decode(t))
  {
    assert (p + q) + t == p + (q + t);
    PrependAssoc(vp, vq, Decode(t));
  }

  /** Nothing, followed by `t`, decodes as `t` does. */
  lemma GlueNothing(t: seq<byte>)
    ensures Decode([] + t) == Prepend([], Decode(t))
  {
    assert [] + t == t;
    match Decode(t)
    case None =>
    case Some(u) => assert [] + u == u;
  }

  lemma DecodeLiteral(x: byte, t: seq<byte>)
    requires x != RleToken
    ensures Decode([x] + t) == Prepend([x], Decode(t))
  {
    assert ([x] + t)[1..] == t;
  }

  lemma DecodeTriple(c: byte, x: byte, t: seq<byte>)
    ensures Decode([RleToken, c, x] + t) == Prepend(Repeat(x, c), Decode(t))
  {
    assert ([RleToken, c, x] + t)[3..] == t;
  }

  /** The bytes written when a run is flushed; `count` is written as the byte it is held in. */
  function RunBytes(r: Run): (b: seq<byte>)
    ensures 1 <= |b| <= 3
  {
    if r.value == RleToken || r.count >= 3 then [RleToken, (r.count % 256) as byte, r.value]
    else if r.count == 2 then [r.value, r.value]
    else [r.value]
  }

  /**
   * The escape form is taken exactly for runs of the token value and runs
   * of three or more; every other run is written as itself, so no literal
   * byte is ever the token.
   */
  lemma RunBytesShape(r: Run)
    requires 1 <= r.count < 256
    ensures RunBytes(r)[0] == RleToken <==> (r.value == RleToken || r.count >= 3)
    ensures RunBytes(r)[0] == RleToken ==> RunBytes(r) == [RleToken, r.count, r.value]
    ensures RunBytes(r)[0] != RleToken ==> RunBytes(r) == Repeat(r.value, r.count) && |RunBytes(r)| <= 2
    ensures RunBytes(r)[0] != RleToken ==> forall k :: 0 <= k < |RunBytes(r)| ==> RunBytes(r)[k] != RleToken
  {
    if r.value != RleToken && r.count < 3 {
      if r.count == 2 {
        assert Repeat(r.value, r.count) == [r.value, r.value];
      } else {
        assert Repeat(r.value, r.count) == [r.value];
      }
    }
  }

  /** Two equal literals decode to themselves. */
  lemma DecodePair(x: byte, t: seq<byte>)
    requires x != RleToken
    ensures Decode([x, x] + t) == Prepend([x, x], Decode(t))
  {
    var t' := [x] + t;
    assert [x, x] + t == [x] + t';
    DecodeLiteral(x, t');
    DecodeLiteral(x, t);
    PrependTwice(x, Decode(t));
  }

  lemma PrependTwice(x: byte, o: Option<seq<byte>>)
    ensures Prepend([x], Prepend([x], o)) == Prepend([x, x], o)
  {
    if o.Some? {
      assert [x] + ([x] + o.value) == [x, x] + o.value;
    }
  }

  /** A flushed run decodes back to its values, whatever follows it. */
  lemma DecodeRun(r: Run, t: seq<byte>)
    requires 1 <= r.count < 256
    ensures Decode(RunBytes(r) + t) == Prepend(Repeat(r.value, r.count), Decode(t))
  {
    if r.value == RleToken || r.count >= 3 {
      DecodeTriple(r.count, r.value, t);
    } else if r.count == 2 {
      assert Repeat(r.value, r.count) == [r.value, r.value];
      DecodePair(r.value, t);
    } else {
      assert Repeat(r.value, r.count) == [r.value];
      DecodeLiteral(r.value, t);
    }
  }

  /** The bytes of a sequence of runs, flushed in order. */
  function EncodeRuns(rs: seq<Run>): seq<byte>
  {
    if rs == [] then [] else RunBytes(rs[0]) + EncodeRuns(rs[1..])
  }

  /** The bytes `save` writes for one block whose values, in scan order, are `vals`. */
  function EncodedChunk(vals: seq<byte>): seq<byte>
  {
    EncodeRuns(Runs(vals))
  }

  // ---------------------------------------------------------------------
  // Lemmas about runs

  lemma {:induction false} ExpandAppend(a: seq<Run>, b: seq<Run>)
    ensures Expand(a + b) == Expand(a) + Expand(b)
  {
    if a == [] {
      assert a + b == b;
    } else {
      assert (a + b)[1..] == a[1..] + b;
      ExpandAppend(a[1..], b);
    }
  }

  lemma ExpandSingle(r: Run)
    ensures Expand([r]) == Repeat(r.value, r.count)
  {
    assert [r][1..] == [];
  }

  lemma ValidRunsAppend(a: seq<Run>, b: seq<Run>)
    requires ValidRuns(a) && ValidRuns(b)
    ensures ValidRuns(a + b)
  {
    forall k | 0 <= k < |a + b|
      ensures 1 <= (a + b)[k].count < 256
    {
      if k < |a| { assert (a + b)[k] == a[k]; } else { assert (a + b)[k] == b[k - |a|]; }
    }
  }

  lemma {:induction false} EncodeRunsAppend(a: seq<Run>, b: seq<Run>)
    ensures EncodeRuns(a + b) == EncodeRuns(a) + EncodeRuns(b)
  {
    if a == [] {
      assert a + b == b;
    } else {
      assert (a + b)[1..] == a[1..] + b;
      EncodeRunsAppend(a[1..], b);
    }
  }

  /** Flushing one more run appends its bytes. */
  lemma EncodeRunsSnoc(rs: seq<Run>, r: Run)
    ensures EncodeRuns(rs + [r]) == EncodeRuns(rs) + RunBytes(r)
  {
    EncodeRunsAppend(rs, [r]);
    assert [r][1..] == [];
  }

  lemma RunsStep(t: seq<byte>, x: byte)
    ensures Runs(t + [x]) == Extend(Runs(t), x)
  {
    assert (t + [x])[..|t|] == t;
  }

  /** Extending keeps the runs covering exactly the values seen. */
  lemma ExtendExpand(rs: seq<Run>, x: byte)
    ensures Expand(Extend(rs, x)) == Expand(rs) + [x]
  {
    if |rs| > 0 && rs[|rs| - 1].value == x {
      var init, last := rs[..|rs| - 1], rs[|rs| - 1];
      assert rs == init + [last];
      ExpandAppend(init, [last]);
      ExpandAppend(init, [Run(x, last.count + 1)]);
      ExpandSingle(last);
      ExpandSingle(Run(x, last.count + 1));
      assert Repeat(x, last.count + 1) == Repeat(x, last.count) + [x];
    } else {
      ExpandAppend(rs, [Run(x, 1)]);
      ExpandSingle(Run(x, 1));
    }
  }

  /** Extending keeps the counts bounded by the number of values seen and the runs maximal. */
  lemma ExtendShape(rs: seq<Run>, x: byte, n: nat)
    requires forall k :: 0 <= k < |rs| ==> 1 <= rs[k].count <= n
    requires Maximal(rs)
    ensures forall k :: 0 <= k < |Extend(rs, x)| ==> 1 <= Extend(rs, x)[k].count <= n + 1
    ensures Maximal(Extend(rs, x))
    ensures |Extend(rs, x)| > 0 && Extend(rs, x)[|Extend(rs, x)| - 1].value == x
  {
    var e := Extend(rs, x);
    if |rs| > 0 && rs[|rs| - 1].value == x {
      assert |e| == |rs|;
      assert forall k :: 0 <= k < |rs| - 1 ==> e[k] == rs[k];
    } else {
      assert |e| == |rs| + 1;
      assert forall k :: 0 <= k < |rs| ==> e[k] == rs[k];
    }
  }

  /**
   * The runs of `s` cover exactly the values of `s`, each has a count between
   * 1 and |s|, neighbouring runs differ in value, and the last run holds the
   * last value.
   */
  lemma {:induction false} RunsShape(s: seq<byte>)
    ensures Expand(Runs(s)) == s
    ensures forall k :: 0 <= k < |Runs(s)| ==> 1 <= Runs(s)[k].count <= |s|
    ensures Maximal(Runs(s))
    ensures s != [] ==> |Runs(s)| > 0 && Runs(s)[|Runs(s)| - 1].value == s[|s| - 1]
  {
    if s != [] {
      var t, x := s[..|s| - 1], s[|s| - 1];
      assert s == t + [x];
      RunsShape(t);
      RunsStep(t, x);
      ExtendExpand(Runs(t), x);
      ExtendShape(Runs(t), x, |t|);
    }
  }

  /** The runs of a block of at most 255 values can all be written. */
  lemma RunsValid(s: seq<byte>)
    requires |s| < 256
    ensures ValidRuns(Runs(s))
  {
    RunsShape(s);
  }

  /** Decoding the bytes of some runs, followed by anything, yields their values first. */
  lemma {:induction false} DecodeEncodeRuns(rs: seq<Run>, t: seq<byte>)
    requires ValidRuns(rs)
    ensures Decode(EncodeRuns(rs) + t) == Prepend(Expand(rs), Decode(t))
  {
    if rs == [] {
      GlueNothing(t);
    } else {
      var r := rs[0];
      DecodeEncodeRuns(rs[1..], t);
      DecodeRun(r, EncodeRuns(rs[1..]) + t);
      Glue(RunBytes(r), EncodeRuns(rs[1..]), t, Repeat(r.value, r.count), Expand(rs[1..]));
    }
  }

  /** A block's bytes decode to its values whatever follows them. */
  lemma DecodeChunk(vals: seq<byte>, t: seq<byte>)
    requires |vals| < 256
    ensures Decode(EncodedChunk(vals) + t) == Prepend(vals, Decode(t))
  {
    RunsValid(vals);
    RunsShape(vals);
    DecodeEncodeRuns(Runs(vals), t);
  }

  /** The bytes of one block decode back to exactly its values. */
  lemma ChunkRoundTrip(vals: seq<byte>)
    requires |vals| < 256
    ensures Decode(EncodedChunk(vals)) == Some(vals)
  {
    DecodeChunk(vals, []);
    assert EncodedChunk(vals) + [] == EncodedChunk(vals);
    assert vals + [] == vals;
  }

  /**
   * The runs are the only maximal decomposition: any sequence of non-empty,
   * maximal runs that expands to `s` is `Runs(s)`.
   */
  lemma {:induction false} RunsUnique(rs: seq<Run>, s: seq<byte>)
    requires forall k :: 0 <= k < |rs| ==> rs[k].count >= 1
    requires Maximal(rs)
    requires Expand(rs) == s
    ensures Runs(s) == rs
  {
    if rs != [] {
      var init, last := rs[..|rs| - 1], rs[|rs| - 1];
      assert rs == init + [last];
      ExpandAppend(init, [last]);
      ExpandSingle(last);
      RunsUnique(init, Expand(init));
      RunsShape(Expand(init));
      RunsOfRepeat(Expand(init), last.value, last.count);
    }
  }

  /** A value that differs from the last one opens a new run. */
  lemma RunsNewValue(t: seq<byte>, v: byte)
    requires t != [] ==> t[|t| - 1] != v
    ensures Runs(t + [v]) == Runs(t) + [Run(v, 1)]
  {
    RunsStep(t, v);
    if t != [] { RunsShape(t); }
  }

  /** A value equal to the last run's lengthens that run. */
  lemma RunsSameValue(t: seq<byte>, rs: seq<Run>, v: byte, c: nat)
    requires Runs(t) == rs + [Run(v, c)]
    ensures Runs(t + [v]) == rs + [Run(v, c + 1)]
  {
    RunsStep(t, v);
    var e := rs + [Run(v, c)];
    assert e[..|e| - 1] == rs;
  }

  lemma RepeatSnoc(v: byte, n: nat)
    ensures Repeat(v, n + 1) == Repeat(v, n) + [v]
  {
  }

  /** Appending `c` copies of a value that differs from the last one adds exactly one run. */
  lemma {:induction false} RunsOfRepeat(t: seq<byte>, v: byte, c: nat)
    requires c >= 1
    requires t != [] ==> t[|t| - 1] != v
    ensures Runs(t + Repeat(v, c)) == Runs(t) + [Run(v, c)]
  {
    if c == 1 {
      RepeatOne(t, v);
    } else {
      RunsOfRepeat(t, v, c - 1);
      RepeatMore(t, v, c);
    }
  }

  lemma RepeatOne(t: seq<byte>, v: byte)
    requires t != [] ==> t[|t| - 1] != v
    ensures Runs(t + Repeat(v, 1)) == Runs(t) + [Run(v, 1)]
  {
    assert Repeat(v, 1) == [v];
    RunsNewValue(t, v);
  }

  lemma RepeatMore(t: seq<byte>, v: byte, c: nat)
    requires c >= 2
    requires Runs(t + Repeat(v, c - 1)) == Runs(t) + [Run(v, c - 1)]
    ensures Runs(t + Repeat(v, c)) == Runs(t) + [Run(v, c)]
  {
    var u := t + Repeat(v, c - 1);
    RepeatSnoc(v, c - 1);
    assert t + Repeat(v, c) == u + [v];
    RunsSameValue(u, Runs(t), v, c - 1);
  }

  /** A sequence that has been encoded can be recovered, so the encoding is injective. */
  lemma EncodedChunkInjective(a: seq<byte>, b: seq<byte>)
    requires |a| < 256 && |b| < 256
    requires EncodedChunk(a) == EncodedChunk(b)
    ensures a == b
  {
    ChunkRoundTrip(a);
    ChunkRoundTrip(b);
  }

  // ---------------------------------------------------------------------
  // The per-block encoder

  /**
   * The body of `save`'s per-block loop: walk the block in scan order,
   * keeping the last value and the length of its run, and flush the run on
   * every change of value and once more after the last value.
   */
  method WriteChunk(data: Block, order: seq<int>) returns (bytes: seq<byte>)
    requires IsScanOrder(order)
    ensures bytes == EncodedChunk(ScanValues(data, order))
  {
    ghost var vals := ScanValues(data, order);
    ghost var done: seq<Run> := [];
    var prev: byte := data[0];
    var count: nat := 0;
    bytes := [];
    for k := 0 to |order|
      invariant k == 0 ==> count == 0 && done == [] && prev == data[0]
      invariant k > 0 ==> 1 <= count <= k && RunsPrefix(vals, k) == done + [Run(prev, count)]
      invariant bytes == EncodeRuns(done)
    {
      var val := data[order[k]];
      assert val == vals[k];
      if val == prev {
        if k > 0 {
          ExtendSame(done, prev, count);
        }
        count := count + 1;
      } else {
        ExtendNew(done, prev, count, val);
        EncodeRunsSnoc(done, Run(prev, count));
        bytes := bytes + RunBytes(Run(prev, count));
        done := done + [Run(prev, count)];
        prev := val;
        count := 1;
      }
    }
    LastFlush(vals, done, prev, count);
    bytes := bytes + RunBytes(Run(prev, count));
  }

  /** The flush after the last value completes the block's bytes. */
  lemma LastFlush(vals: seq<byte>, done: seq<Run>, prev: byte, count: nat)
    requires 0 < |vals|
    requires RunsPrefix(vals, |vals|) == done + [Run(prev, count)]
    ensures EncodeRuns(done) + RunBytes(Run(prev, count)) == EncodedChunk(vals)
  {
    EncodeRunsSnoc(done, Run(prev, count));
    RunsPrefixIsRuns(vals, |vals|);
    assert vals[..|vals|] == vals;
  }

  /** The runs of the first `k` values, grown one value at a time as in the loop of `save`. */
  function RunsPrefix(s: seq<byte>, k: nat): seq<Run>
    requires k <= |s|
  {
    if k == 0 then [] else Extend(RunsPrefix(s, k - 1), s[k - 1])
  }

  lemma {:induction false} RunsPrefixIsRuns(s: seq<byte>, k: nat)
    requires k <= |s|
    ensures RunsPrefix(s, k) == Runs(s[..k])
  {
    if k > 0 {
      RunsPrefixIsRuns(s, k - 1);
      assert s[..k][..k - 1] == s[..k - 1];
    }
  }

  /** A value equal to `prev` lengthens the open run. */
  lemma ExtendSame(done: seq<Run>, v: byte, c: nat)
    ensures Extend(done + [Run(v, c)], v) == done + [Run(v, c + 1)]
  {
    var e := done + [Run(v, c)];
    assert e[..|e| - 1] == done;
  }

  /** A value different from `prev` closes the open run and opens a new one. */
  lemma ExtendNew(done: seq<Run>, p: byte, c: nat, v: byte)
    requires p != v
    ensures Extend(done + [Run(p, c)], v) == (done + [Run(p, c)]) + [Run(v, 1)]
  {
  }
}
