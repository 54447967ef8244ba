// The two passes main() makes over serverConfigurationFilenames after it has
// extracted a ZIP/ALG application (main.go:132-146): an append pass that
// registers the configuration files found in the extracted tree, and a
// removal pass that is meant to drop the bare names (names without a path
// separator) which refer to the current directory.

module ConfigNames {
  import opened GoPath

  /** The entries that contain a path separator, in their order. */
  function Slashed(names: seq<string>): (r: seq<string>)
    decreases |names|
  {
    if names == [] then []
    else (if Bare(names[0]) then [] else [names[0]]) + Slashed(names[1..])
  }

  lemma {:induction false} SlashedAppend(a: seq<string>, b: seq<string>)
    ensures Slashed(a + b) == Slashed(a) + Slashed(b)
    decreases |a|
  {
    if a == [] {
      assert a + b == b;
    } else {
      assert (a + b)[0] == a[0] && (a + b)[1..] == a[1..] + b;
      SlashedAppend(a[1..], b);
    }
  }

  // ---------------------------------------------------------------------
  // The append pass (main.go:132-137)
  // ---------------------------------------------------------------------

  /**
   * What the append pass adds, in order: Join(dir, f) for every original
   * name f whose joined path exists.
   */
  function Joined(dir: string, names: seq<string>, files: set<string>): seq<string>
    decreases |names|
  {
    if names == [] then []
    else
      var c := Join(dir, names[|names| - 1]);
      Joined(dir, names[..|names| - 1], files) + (if c in files then [c] else [])
  }

  /**
   * The append pass. Go's range evaluates the slice once, so the loop visits
   * exactly the original entries even though it appends to the same variable.
   */
  method AppendExtracted(names: seq<string>, dir: string, files: set<string>) returns (r: seq<string>)
    ensures r == names + Joined(dir, names, files)
  {
    r := names;
    for i := 0 to |names|
      invariant r == names + Joined(dir, names[..i], files)
    {
      assert names[..i + 1][..i] == names[..i];
      var configFilename := Join(dir, names[i]);
      if configFilename in files {
        r := r + [configFilename];
      }
    }
    assert names[..|names|] == names;
  }

  /**
   * Every appended entry is an existing joined path Join(dir, f) for an
   * original f, and the appended entries keep the order of their originals.
   */
  lemma {:induction false} JoinedEntries(dir: string, names: seq<string>, files: set<string>)
    ensures |Joined(dir, names, files)| <= |names|
    ensures forall x :: x in Joined(dir, names, files) ==>
      x in files && exists f :: f in names && x == Join(dir, f)
    ensures forall f :: f in names && Join(dir, f) in files ==> Join(dir, f) in Joined(dir, names, files)
    decreases |names|
  {
    if names != [] {
      var init := names[..|names| - 1];
      JoinedEntries(dir, init, files);
      assert names == init + [names[|names| - 1]];
    }
  }

  /** Order: the entries Joined adds for a prefix come before those for the rest. */
  lemma {:induction false} JoinedAppend(dir: string, a: seq<string>, b: seq<string>, files: set<string>)
    ensures Joined(dir, a + b, files) == Joined(dir, a, files) + Joined(dir, b, files)
    decreases |b|
  {
    if b == [] {
      assert a + b == a;
    } else {
      var b' := b[..|b| - 1];
      assert (a + b)[..|a + b| - 1] == a + b';
      assert (a + b)[|a + b| - 1] == b[|b| - 1];
      JoinedAppend(dir, a, b', files);
    }
  }

  /** With a directory that contains a separator every appended entry does too. */
  lemma {:induction false} JoinedAreSlashed(dir: string, names: seq<string>, files: set<string>)
    requires !Bare(dir)
    ensures Slashed(Joined(dir, names, files)) == Joined(dir, names, files)
    decreases |names|
  {
    if names != [] {
      var init := names[..|names| - 1];
      var c := Join(dir, names[|names| - 1]);
      JoinedAreSlashed(dir, init, files);
      assert !Bare(c);
      SlashedAppend(Joined(dir, init, files), if c in files then [c] else []);
    }
  }

  // ---------------------------------------------------------------------
  // The removal pass (main.go:141-146)
  // ---------------------------------------------------------------------

  /** Result of the removal pass: the surviving list, or a slice-bounds panic. */
  datatype Removal = Removed(names: seq<string>) | SliceBoundsPanic

  /**
   * The entries the removal pass keeps while its index is still inside the
   * shrinking slice. A bare entry is deleted; the entry shifted into its
   * place is never examined and survives whatever it is.
   */
  function Survivors(t: seq<string>): seq<string>
    decreases |t|
  {
    if t == [] then []
    else if !Bare(t[0]) then [t[0]] + Survivors(t[1..])
    else if |t| == 1 then []
    else [t[1]] + Survivors(t[2..])
  }

  /** Whether some deletion shifted an entry into the deleted place (which is then skipped). */
  predicate Skips(t: seq<string>)
    decreases |t|
  {
    if t == [] then false
    else if !Bare(t[0]) then Skips(t[1..])
    else |t| >= 2
  }

  /**
   * The removal pass as written. Go's range keeps reading the shared backing
   * array up to the original length; every index past the shrunk length holds
   * a stale copy of the original last entry. If that entry is bare and such
   * an index is reached, `s[i+1:]` is out of range and the program panics.
   */
  function RemovalAsWritten(s: seq<string>): Removal {
    if |s| > 0 && Bare(s[|s| - 1]) && Skips(s) then SliceBoundsPanic
    else Removed(Survivors(s))
  }

  /**
   * The removal pass, on an array standing for the slice's backing store:
   * `len` is the slice's current length (it shrinks with every deletion) while
   * the index `i` runs over the original length, as Go's range does.
   */
  method RemoveBareNames(s: seq<string>) returns (res: Removal)
    ensures res == RemovalAsWritten(s)
  {
    var n := |s|;
    var a := new string[n](k requires 0 <= k < n => s[k]);
    var len := n;
    ghost var c := 0;            // entries of s the deletions and skips have consumed
    ghost var skipped := false;  // some deletion shifted an entry into the deleted place
    assert a[..] == s;
    for i := 0 to n
      invariant a.Length == n
      invariant SweepInv(s, a[..], len, i, c, skipped)
    {
      var filename := a[i];
      if Bare(filename) {
        if i + 1 > len {
          // s[i+1:] with i+1 > len(s): runtime panic
          SweepPanics(s, a[..], len, i, c, skipped);
          return SliceBoundsPanic;
        }
        if i + 2 <= len {
          SweepDeletes(s, a[..], len, i, c, skipped);
        } else {
          SweepDeletesLast(s, a[..], len, i, c, skipped);
        }
        // append(s[:i], s[i+1:]...) moves the tail one place left, in place
        ShiftLeft(a, i, len);
        c, skipped := if i + 2 <= len then c + 2 else c + 1, skipped || i + 2 <= len;
        len := len - 1;
      } else {
        SweepKeeps(s, a[..], len, i, c, skipped);
        c := if i < len then c + 1 else c;
      }
    }
    SweepEnds(s, a[..], len, c, skipped);
    return Removed(a[..len]);
  }

  /** The backing store after append(s[:i], s[i+1:]...) on a slice of length len. */
  function Shifted(cur: seq<string>, i: nat, len: nat): seq<string>
    requires i < len <= |cur|
  {
    cur[..i] + cur[i + 1..len] + cur[len - 1..]
  }

  method ShiftLeft(a: array<string>, i: nat, len: nat)
    requires i < len <= a.Length
    modifies a
    ensures a[..] == Shifted(old(a[..]), i, len)
  {
    forall j | i <= j < len - 1 {
      a[j] := a[j + 1];
    }
  }

  /**
   * The state of the removal loop before iteration i: the backing store `cur`,
   * the slice length `len`, the number `c` of entries of `s` consumed, and
   * whether some entry has been skipped.
   */
  ghost predicate SweepInv(s: seq<string>, cur: seq<string>, len: nat, i: nat, c: nat, skipped: bool) {
    var n := |s|;
    |cur| == n && len <= n && c <= n && i <= n &&
    // past the current length the store holds stale copies of the last entry
    (forall m :: len <= m < n ==> cur[m] == s[n - 1]) &&
    (i <= len ==> c == n - len + i && cur[i..len] == s[c..]) &&
    (i >= len ==> c == n) &&
    cur[..if i <= len then i else len] + Survivors(s[c..]) == Survivors(s) &&
    Skips(s) == (skipped || Skips(s[c..])) &&
    (i <= len ==> (skipped <==> len < n)) &&
    (n > 0 && i >= len && Bare(s[n - 1]) ==> (skipped <==> i < n))
  }

  lemma SweepKeeps(s: seq<string>, cur: seq<string>, len: nat, i: nat, c: nat, skipped: bool)
    requires SweepInv(s, cur, len, i, c, skipped) && i < |s| && !Bare(cur[i])
    ensures SweepInv(s, cur, len, i + 1, if i < len then c + 1 else c, skipped)
  {
    if i < len {
      assert cur[i] == s[c];
      KeepStep(s, c);
      assert cur[..i + 1] == cur[..i] + [cur[i]];
      assert cur[i + 1..len] == cur[i..len][1..];
    }
  }

  /** Deleting a bare entry that has a successor inside the slice skips that successor. */
  lemma SweepDeletes(s: seq<string>, cur: seq<string>, len: nat, i: nat, c: nat, skipped: bool)
    requires SweepInv(s, cur, len, i, c, skipped) && i < |s| && Bare(cur[i]) && i + 2 <= len
    ensures SweepInv(s, Shifted(cur, i, len), len - 1, i + 1, c + 2, true)
  {
    var after := Shifted(cur, i, len);
    assert cur[i] == s[c];
    assert cur[i + 1] == s[c + 1];
    DeleteStep(s, c);
    assert after[..i + 1] == cur[..i] + [cur[i + 1]];
    assert after[i + 1..len - 1] == cur[i + 2..len];
    assert cur[i + 2..len] == cur[i..len][2..];
    assert forall m :: len - 1 <= m < |s| ==> after[m] == cur[m];
    assert cur[len - 1] == cur[i..len][len - 1 - i];
  }

  /** Deleting the last entry inside the slice skips nothing. */
  lemma SweepDeletesLast(s: seq<string>, cur: seq<string>, len: nat, i: nat, c: nat, skipped: bool)
    requires SweepInv(s, cur, len, i, c, skipped) && i < |s| && Bare(cur[i]) && i + 1 == len
    ensures SweepInv(s, Shifted(cur, i, len), len - 1, i + 1, c + 1, skipped)
  {
    var after := Shifted(cur, i, len);
    assert cur[i] == s[c];
    DeleteLastStep(s, c);
    assert after[..i] == cur[..i];
    assert forall m :: len - 1 <= m < |s| ==> after[m] == cur[m];
  }

  lemma SweepPanics(s: seq<string>, cur: seq<string>, len: nat, i: nat, c: nat, skipped: bool)
    requires SweepInv(s, cur, len, i, c, skipped) && i < |s| && Bare(cur[i]) && i + 1 > len
    ensures RemovalAsWritten(s) == SliceBoundsPanic
  {
  }

  lemma SweepEnds(s: seq<string>, cur: seq<string>, len: nat, c: nat, skipped: bool)
    requires SweepInv(s, cur, len, |s|, c, skipped)
    ensures RemovalAsWritten(s) == Removed(cur[..len])
  {
    assert s[|s|..] == [];
  }

  lemma KeepStep(s: seq<string>, c: nat)
    requires c < |s| && !Bare(s[c])
    ensures Survivors(s[c..]) == [s[c]] + Survivors(s[c + 1..])
    ensures Skips(s[c..]) == Skips(s[c + 1..])
  {
    assert s[c..][1..] == s[c + 1..];
  }

  lemma DeleteStep(s: seq<string>, c: nat)
    requires c + 1 < |s| && Bare(s[c])
    ensures Survivors(s[c..]) == [s[c + 1]] + Survivors(s[c + 2..])
    ensures Skips(s[c..])
  {
    assert s[c..][2..] == s[c + 2..];
  }

  lemma DeleteLastStep(s: seq<string>, c: nat)
    requires c + 1 == |s| && Bare(s[c])
    ensures Survivors(s[c..]) == [] && !Skips(s[c..])
  {
  }

  /** Which positions of `t` survive the removal pass (while it is inside the slice). */
  function KeptMask(t: seq<string>): (m: seq<bool>)
    ensures |m| == |t|
    decreases |t|
  {
    if t == [] then []
    else if !Bare(t[0]) then [true] + KeptMask(t[1..])
    else if |t| == 1 then [false]
    else [false, true] + KeptMask(t[2..])
  }

  /** The entries of `t` at the positions `m` marks. */
  function Select(t: seq<string>, m: seq<bool>): seq<string>
    requires |m| == |t|
    decreases |t|
  {
    if t == [] then [] else (if m[0] then [t[0]] else []) + Select(t[1..], m[1..])
  }

  /**
   * The removal pass deletes only bare entries: its survivors are `t` with
   * some positions masked out, and every masked-out entry is bare.
   */
  lemma {:induction false} SurvivorsDeleteOnlyBare(t: seq<string>)
    ensures Survivors(t) == Select(t, KeptMask(t))
    ensures forall k :: 0 <= k < |t| && !KeptMask(t)[k] ==> Bare(t[k])
    decreases |t|
  {
    if t == [] {
    } else if !Bare(t[0]) {
      SurvivorsDeleteOnlyBare(t[1..]);
      assert KeptMask(t)[1..] == KeptMask(t[1..]);
      forall k | 0 <= k < |t| && !KeptMask(t)[k] ensures Bare(t[k]) {
        assert t[k] == t[1..][k - 1];
      }
    } else if |t| == 1 {
    } else {
      SurvivorsDeleteOnlyBare(t[2..]);
      var m := KeptMask(t);
      assert m[1..][1..] == KeptMask(t[2..]);
      assert t[1..][1..] == t[2..];
      assert Select(t, m) == [t[1]] + Select(t[2..], KeptMask(t[2..]));
      forall k | 0 <= k < |t| && !m[k] ensures Bare(t[k]) {
        if k >= 2 { assert t[k] == t[2..][k - 2] && m[k] == KeptMask(t[2..])[k - 2]; }
      }
    }
  }

  /** Every entry that contains a separator survives, and in the same order. */
  lemma {:induction false} SurvivorsKeepSlashed(t: seq<string>)
    ensures Slashed(Survivors(t)) == Slashed(t)
    decreases |t|
  {
    if t == [] {
    } else if !Bare(t[0]) {
      SurvivorsKeepSlashed(t[1..]);
      assert ([t[0]] + Survivors(t[1..]))[1..] == Survivors(t[1..]);
    } else if |t| == 1 {
    } else {
      SurvivorsKeepSlashed(t[2..]);
      assert ([t[1]] + Survivors(t[2..]))[1..] == Survivors(t[2..]);
      assert t[1..][1..] == t[2..];
    }
  }

  /** A list with no bare entry passes the removal pass unchanged. */
  lemma {:induction false} RemovalKeepsSlashedList(t: seq<string>)
    requires forall k :: 0 <= k < |t| ==> !Bare(t[k])
    ensures RemovalAsWritten(t) == Removed(t)
  {
    SurvivorsOfSlashed(t);
  }

  lemma {:induction false} SurvivorsOfSlashed(t: seq<string>)
    requires forall k :: 0 <= k < |t| ==> !Bare(t[k])
    ensures Survivors(t) == t && !Skips(t)
    decreases |t|
  {
    if t != [] {
      assert forall k :: 0 <= k < |t[1..]| ==> t[1..][k] == t[k + 1];
      SurvivorsOfSlashed(t[1..]);
    }
  }

  /** The entry after a deleted one is skipped: a bare name can survive. */
  lemma RemovalMayKeepBare()
    ensures RemovalAsWritten(["a", "b", "c/d"]) == Removed(["b", "c/d"])
  {
    assert !Bare("c/d") by { assert "c/d"[1] == '/'; }
    assert ["a", "b", "c/d"][2..] == ["c/d"];
  }

  /** Two bare names at the end make the pass read a stale bare copy and panic. */
  lemma RemovalPanicsOnTwoBareNames()
    ensures RemovalAsWritten(["a", "b"]) == SliceBoundsPanic
  {
  }

  /**
   * When no panic occurs after a ZIP extraction into a directory path, the
   * separator-carrying originals and every appended entry survive, in order.
   */
  lemma ExtractedConfigurationsSurvive(originals: seq<string>, dir: string, files: set<string>)
    requires !Bare(dir)
    requires RemovalAsWritten(originals + Joined(dir, originals, files)).Removed?
    ensures var r := RemovalAsWritten(originals + Joined(dir, originals, files)).names;
      Slashed(r) == Slashed(originals) + Joined(dir, originals, files)
  {
    var t := originals + Joined(dir, originals, files);
    SurvivorsKeepSlashed(t);
    SlashedAppend(originals, Joined(dir, originals, files));
    JoinedAreSlashed(dir, originals, files);
  }
}
