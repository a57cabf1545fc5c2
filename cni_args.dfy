/** `extractArgs` of src/calico-wrapper/main.go: the `CNI_ARGS` string is cut
    at every `;`, each segment is cut at its first `=` only, and the pieces
    are inserted into a key/value map in segment order. A segment without
    `=` makes Go index `parts[1]` of a one-element slice: a runtime panic. */
module CniArgs {
  import opened GoStrings

  /** What `extractArgs` produces: the map it returns, or the index of the
      segment at which it panics. Its `error` result is always nil. */
  datatype Parse = Args(args: map<string, string>) | IndexPanic(segment: nat)

  /** The `;`-separated segments of a `CNI_ARGS` value. */
  function Segments(cniArgs: string): (segs: seq<string>)
    ensures |segs| >= 1
  {
    Split(cniArgs, ";")
  }

  /** The key of a well-formed segment: the text before its first `=`. */
  function Key(seg: string): string
    requires '=' in seg
  {
    SplitN2(seg, "=")[0]
  }

  /** The value of a well-formed segment: everything after its first `=`. */
  function Value(seg: string): string
    requires '=' in seg
  {
    SplitN2Char(seg, '=');
    SplitN2(seg, "=")[1]
  }

  /** One iteration of the loop: segment number `i` inserted into the map built so far. */
  function Step(acc: Parse, i: nat, seg: string): Parse {
    match acc
    case IndexPanic(_) => acc
    case Args(m) =>
      var parts := SplitN2(seg, "=");
      if |parts| < 2 then IndexPanic(i) else Args(m[parts[0] := parts[1]])
  }

  /** A step on a map either inserts the segment's key and value or panics at it. */
  lemma StepArgs(m: map<string, string>, i: nat, seg: string)
    ensures Step(Args(m), i, seg) ==
      if '=' in seg then Args(m[Key(seg) := Value(seg)]) else IndexPanic(i)
  {
    SplitN2Char(seg, '=');
  }

  /** The loop over the first `|segs|` segments, as a left fold. */
  function Fold(segs: seq<string>): Parse
    decreases |segs|
  {
    if segs == [] then Args(map[])
    else Step(Fold(segs[..|segs| - 1]), |segs| - 1, segs[|segs| - 1])
  }

  /** The whole of `extractArgs` applied to the value of `CNI_ARGS`. */
  function ParseArgs(cniArgs: string): (r: Parse)
    ensures r.Args? <==> forall seg :: seg in Segments(cniArgs) ==> '=' in seg
    ensures r.IndexPanic? ==> r.segment < |Segments(cniArgs)| && '=' !in Segments(cniArgs)[r.segment]
  {
    FoldPanics(Segments(cniArgs));
    Fold(Segments(cniArgs))
  }

  /** `extractArgs`: the loop of main.go, inserting into the map in place. */
  method ExtractArgs(cniArgs: string) returns (r: Parse)
    ensures r == ParseArgs(cniArgs)
  {
    var segs := Split(cniArgs, ";");
    var args: map<string, string> := map[];
    for i := 0 to |segs|
      invariant Fold(segs[..i]) == Args(args)
    {
      assert segs[..i + 1][..i] == segs[..i];
      var parts := SplitN2(segs[i], "=");
      if |parts| < 2 {
        // parts[1] is out of range: Go panics here
        PanicSticks(segs, i + 1);
        return IndexPanic(i);
      }
      args := args[parts[0] := parts[1]];
    }
    assert segs[..|segs|] == segs;
    return Args(args);
  }

  /** Once the loop has panicked, the later segments do not matter. */
  lemma {:induction false} PanicSticks(segs: seq<string>, n: nat)
    requires n <= |segs|
    requires Fold(segs[..n]).IndexPanic?
    ensures Fold(segs) == Fold(segs[..n])
    decreases |segs| - n
  {
    if n < |segs| {
      assert segs[..n + 1][..n] == segs[..n];
      PanicSticks(segs, n + 1);
    } else {
      assert segs[..n] == segs;
    }
  }

  /** A segment is cut at its first `=` only: the key is the text before it and
      holds no `=`, the value is everything after it (later `=` included), and
      no other cut of the segment has these properties. */
  lemma FirstEqualsOnly(seg: string, k: string, v: string)
    requires '=' in seg
    ensures seg == Key(seg) + "=" + Value(seg) && '=' !in Key(seg)
    ensures seg == k + "=" + v && '=' !in k ==> k == Key(seg) && v == Value(seg)
  {
    SplitN2Parts(seg, "=");
    ContainsChar(seg, '=');
    ContainsChar(Key(seg), '=');
    if seg == k + "=" + v && '=' !in k {
      assert seg[..|k|] == k;
      IndexChar(seg, '=', |k|);
      assert seg[|k| + 1..] == v;
    }
  }

  /** The fold fails exactly when some segment has no `=`, and then it names
      the first such segment. */
  lemma {:induction false} FoldPanics(segs: seq<string>)
    ensures Fold(segs).Args? <==> forall i :: 0 <= i < |segs| ==> '=' in segs[i]
    ensures Fold(segs).IndexPanic? ==>
      var at := Fold(segs).segment;
      at < |segs| && '=' !in segs[at] && forall j :: 0 <= j < at ==> '=' in segs[j]
    decreases |segs|
  {
    if segs != [] {
      var n := |segs| - 1;
      var init := segs[..n];
      FoldPanics(init);
      assert forall i :: 0 <= i < n ==> init[i] == segs[i];
      if Fold(init).Args? {
        StepArgs(Fold(init).args, n, segs[n]);
      }
    }
  }

  /** After the fold, the keys of the map are exactly the keys of the segments. */
  lemma {:induction false} FoldKeys(segs: seq<string>, k: string)
    requires Fold(segs).Args?
    ensures forall i :: 0 <= i < |segs| ==> '=' in segs[i]
    ensures k in Fold(segs).args <==> HasKey(segs, k)
    decreases |segs|
  {
    FoldPanics(segs);
    if segs != [] {
      var n := |segs| - 1;
      var init := segs[..n];
      FoldPanics(init);
      StepArgs(Fold(init).args, n, segs[n]);
      FoldKeys(init, k);
      HasKeySnoc(segs, k);
    }
  }

  /** Some segment of `segs` is well formed and carries key `k`. */
  ghost predicate HasKey(segs: seq<string>, k: string) {
    exists i :: 0 <= i < |segs| && KeyOf(segs[i], k)
  }

  /** A key is among all segments when it is among the earlier ones or in the last. */
  lemma HasKeySnoc(segs: seq<string>, k: string)
    requires segs != []
    ensures HasKey(segs, k) <==> HasKey(segs[..|segs| - 1], k) || KeyOf(segs[|segs| - 1], k)
  {
    var init := segs[..|segs| - 1];
    if HasKey(segs, k) && !KeyOf(segs[|segs| - 1], k) {
      var i :| 0 <= i < |segs| && KeyOf(segs[i], k);
      assert init[i] == segs[i];
    }
    if HasKey(init, k) {
      var i :| 0 <= i < |init| && KeyOf(init[i], k);
      assert segs[i] == init[i];
    }
  }

  /** Segment `i` is the last of `segs` that carries key `k`. */
  predicate LastWithKey(segs: seq<string>, i: nat, k: string)
    requires i < |segs|
  {
    KeyOf(segs[i], k) && forall j :: i < j < |segs| ==> !KeyOf(segs[j], k)
  }

  /** Segment `seg` is well formed and carries key `k`. */
  predicate KeyOf(seg: string, k: string) {
    '=' in seg && Key(seg) == k
  }

  /** Duplicate keys are last-write-wins: the map holds, for each key, the value
      of the last segment that carries it. */
  lemma {:induction false} FoldLastWins(segs: seq<string>, i: nat)
    requires Fold(segs).Args?
    requires i < |segs|
    requires '=' in segs[i]
    requires forall j :: i < j < |segs| ==> !KeyOf(segs[j], Key(segs[i]))
    ensures Key(segs[i]) in Fold(segs).args && Fold(segs).args[Key(segs[i])] == Value(segs[i])
    decreases |segs|
  {
    var n := |segs| - 1;
    var init := segs[..n];
    assert Fold(init).Args?;
    var m := Fold(init).args;
    StepArgs(m, n, segs[n]);
    assert '=' in segs[n] && Fold(segs).args == m[Key(segs[n]) := Value(segs[n])];
    if i < n {
      assert init[i] == segs[i];
      forall j | i < j < |init| ensures !KeyOf(init[j], Key(init[i])) {
        assert init[j] == segs[j];
      }
      FoldLastWins(init, i);
    }
  }

  /** `extractArgs` returns a map exactly when every segment of `CNI_ARGS`
      contains `=`; otherwise it panics at the first segment that does not. */
  lemma ParseArgsFails(cniArgs: string)
    ensures ParseArgs(cniArgs).Args? <==> forall seg :: seg in Segments(cniArgs) ==> '=' in seg
    ensures ParseArgs(cniArgs).IndexPanic? ==>
      var segs, at := Segments(cniArgs), ParseArgs(cniArgs).segment;
      at < |segs| && '=' !in segs[at] && forall j :: 0 <= j < at ==> '=' in segs[j]
  {
    FoldPanics(Segments(cniArgs));
  }

  /** An unset or empty `CNI_ARGS` is one empty segment, so `extractArgs` panics on it. */
  lemma ParseArgsEmpty()
    ensures ParseArgs("") == IndexPanic(0)
  {
    SplitNoSeparator("", ';');
    ContainsChar("", '=');
    assert Segments("") == [""];
    assert Segments("")[..0] == [];
  }

  /** On success every segment is well formed, the map's keys are exactly
      the keys of the segments, and each key maps to the value of the last
      segment carrying it. */
  lemma ParseArgsMap(cniArgs: string, k: string)
    requires ParseArgs(cniArgs).Args?
    ensures forall seg :: seg in Segments(cniArgs) ==> '=' in seg
    ensures k in ParseArgs(cniArgs).args <==> exists seg :: seg in Segments(cniArgs) && KeyOf(seg, k)
    ensures forall i :: 0 <= i < |Segments(cniArgs)| && LastWithKey(Segments(cniArgs), i, k) ==>
      ParseArgs(cniArgs).args[k] == Value(Segments(cniArgs)[i])
  {
    var segs := Segments(cniArgs);
    FoldKeys(segs, k);
    forall i | 0 <= i < |segs| && LastWithKey(segs, i, k)
      ensures ParseArgs(cniArgs).args[k] == Value(segs[i])
    {
      FoldLastWins(segs, i);
    }
    if exists seg :: seg in segs && KeyOf(seg, k) {
      var seg :| seg in segs && KeyOf(seg, k);
      var i :| 0 <= i < |segs| && segs[i] == seg;
      assert KeyOf(segs[i], k);
    }
  }

  /** The amendment written back to the environment, `old;IP=<ip>`, parses as
      the old map with `IP` set to `ip`, provided the address holds no `;`. */
  lemma AppendIp(cniArgs: string, ip: string)
    requires ParseArgs(cniArgs).Args?
    requires ';' !in ip
    ensures ParseArgs(cniArgs + ";IP=" + ip) == Args(ParseArgs(cniArgs).args["IP" := ip])
  {
    var seg := "IP=" + ip;
    IpSegment(ip);
    AppendSegment(cniArgs, seg);
    SplitNoSeparator(seg, ';');
    assert cniArgs + ";IP=" + ip == cniArgs + ";" + seg;
    InsertLast(Segments(cniArgs), seg);
  }

  /** The `IP=<ip>` segment is well formed, with key `IP` and value `ip`. */
  lemma IpSegment(ip: string)
    requires ';' !in ip
    ensures '=' in "IP=" + ip && ';' !in "IP=" + ip
    ensures Key("IP=" + ip) == "IP" && Value("IP=" + ip) == ip
  {
    var seg := "IP=" + ip;
    assert seg[..3] == "IP=" && seg[3..] == ip;
    assert '=' in seg by { assert seg[2] == '='; }
    FirstEqualsOnly(seg, "IP", ip);
  }

  /** A well-formed segment after well-formed ones inserts its key and value. */
  lemma InsertLast(segs: seq<string>, seg: string)
    requires Fold(segs).Args? && '=' in seg
    ensures Fold(segs + [seg]) == Args(Fold(segs).args[Key(seg) := Value(seg)])
  {
    FoldSnoc(segs, seg);
    StepArgs(Fold(segs).args, |segs|, seg);
  }

  /** Appending `;` and more text appends the segments of that text. */
  lemma AppendSegment(cniArgs: string, more: string)
    ensures Segments(cniArgs + ";" + more) == Segments(cniArgs) + Split(more, ";")
  {
    assert cniArgs + ";" + more == cniArgs + [';'] + more;
    SplitConcat(cniArgs, more, ';');
  }

  /** The fold over one more segment is one more step. */
  lemma FoldSnoc(segs: seq<string>, seg: string)
    ensures Fold(segs + [seg]) == Step(Fold(segs), |segs|, seg)
  {
    assert (segs + [seg])[..|segs|] == segs;
  }
}
