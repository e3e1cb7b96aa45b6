/**
 The line-oriented key rewrite that the launcher applies to `altv.toml`.

 Given the file's lines, a key and a value, every line whose raw text starts
 with the key is replaced by `key = value` followed by a newline; every other
 line is copied through unchanged. Matching is a plain prefix test with no
 trimming, and a key that no line carries is not appended.
 */
module TomlRewrite {

  /** A raw, untrimmed prefix test on the line's text. */
  predicate StartsWith(line: string, prefix: string) {
    |prefix| <= |line| && line[..|prefix|] == prefix
  }

  /** The prefix test holds exactly when the line is the prefix followed by the rest of the line. */
  lemma StartsWithMeansPrefix(line: string, prefix: string, rest: string)
    ensures StartsWith(prefix + rest, prefix)
    ensures StartsWith(line, prefix) ==> line == prefix + line[|prefix|..]
    ensures !StartsWith(line, prefix) ==> line != prefix + rest
  {
    assert (prefix + rest)[..|prefix|] == prefix;
    if StartsWith(line, prefix) {
      assert line == line[..|prefix|] + line[|prefix|..];
    }
  }

  /** The text written in place of a matching line. */
  function KeyLine(key: string, value: string): (r: string)
    ensures StartsWith(r, key)
    ensures |r| > |key| && r[|r| - 1] == '\n'
  {
    var r := key + " = " + value + "\n";
    assert r[..|key|] == key;
    r
  }

  /** The new content of the file: matching lines replaced, the rest kept. */
  function RewriteKey(lines: seq<string>, key: string, value: string): (r: seq<string>)
    ensures |r| == |lines|
    ensures forall i :: 0 <= i < |lines| && StartsWith(lines[i], key) ==> r[i] == KeyLine(key, value)
    ensures forall i :: 0 <= i < |lines| && !StartsWith(lines[i], key) ==> r[i] == lines[i]
    decreases |lines|
  {
    if lines == [] then []
    else
      var head := if StartsWith(lines[0], key) then KeyLine(key, value) else lines[0];
      [head] + RewriteKey(lines[1..], key, value)
  }

  /** The number of lines whose raw text starts with `key`. */
  function CountMatches(lines: seq<string>, key: string): nat
    decreases |lines|
  {
    if lines == [] then 0
    else (if StartsWith(lines[0], key) then 1 else 0) + CountMatches(lines[1..], key)
  }

  /** After the rewrite, every line carrying the key holds the same replacement text. */
  lemma RewriteLeavesOnlyNewValue(lines: seq<string>, key: string, value: string)
    ensures forall i :: 0 <= i < |lines| && StartsWith(RewriteKey(lines, key, value)[i], key) ==>
      RewriteKey(lines, key, value)[i] == KeyLine(key, value)
  {
  }

  /** Rewriting twice with the same value gives the same lines as rewriting once. */
  lemma {:induction false} RewriteIdempotent(lines: seq<string>, key: string, value: string)
    ensures RewriteKey(RewriteKey(lines, key, value), key, value) == RewriteKey(lines, key, value)
    decreases |lines|
  {
    if lines != [] {
      var once := RewriteKey(lines, key, value);
      RewriteIdempotent(lines[1..], key, value);
      assert once[1..] == RewriteKey(lines[1..], key, value);
      assert RewriteKey(once, key, value) == [RewriteKey(once, key, value)[0]] + RewriteKey(once[1..], key, value);
    }
  }

  /** The rewrite leaves the lines as they are exactly when every matching line already holds the replacement. */
  lemma RewriteFixedPoint(lines: seq<string>, key: string, value: string)
    ensures RewriteKey(lines, key, value) == lines <==>
      forall i :: 0 <= i < |lines| && StartsWith(lines[i], key) ==> lines[i] == KeyLine(key, value)
  {
    var r := RewriteKey(lines, key, value);
    if r == lines {
      forall i | 0 <= i < |lines| && StartsWith(lines[i], key)
        ensures lines[i] == KeyLine(key, value)
      {
        assert r[i] == KeyLine(key, value);
      }
    }
    if forall i :: 0 <= i < |lines| && StartsWith(lines[i], key) ==> lines[i] == KeyLine(key, value) {
      assert forall i :: 0 <= i < |lines| ==> r[i] == lines[i];
    }
  }

  /** A key that no line carries leaves the file as it was: nothing is appended. */
  lemma RewriteAbsentKey(lines: seq<string>, key: string, value: string)
    requires forall i :: 0 <= i < |lines| ==> !StartsWith(lines[i], key)
    ensures RewriteKey(lines, key, value) == lines
  {
    RewriteFixedPoint(lines, key, value);
  }

  /** The rewrite neither adds nor removes lines carrying the key, so it never duplicates it. */
  lemma {:induction false} RewriteKeepsMatchCount(lines: seq<string>, key: string, value: string)
    ensures CountMatches(RewriteKey(lines, key, value), key) == CountMatches(lines, key)
    decreases |lines|
  {
    if lines != [] {
      var r := RewriteKey(lines, key, value);
      RewriteKeepsMatchCount(lines[1..], key, value);
      assert r[1..] == RewriteKey(lines[1..], key, value);
      assert StartsWith(r[0], key) == StartsWith(lines[0], key);
    }
  }

  /** Each line is rewritten on its own: the rewrite of a concatenation is the concatenation of the rewrites. */
  lemma RewriteDistributes(a: seq<string>, b: seq<string>, key: string, value: string)
    ensures RewriteKey(a + b, key, value) == RewriteKey(a, key, value) + RewriteKey(b, key, value)
  {
    var whole := RewriteKey(a + b, key, value);
    var ra := RewriteKey(a, key, value);
    var rb := RewriteKey(b, key, value);
    assert |whole| == |ra + rb|;
    forall i | 0 <= i < |whole|
      ensures whole[i] == (ra + rb)[i]
    {
      var line := (a + b)[i];
      var expected := if StartsWith(line, key) then KeyLine(key, value) else line;
      assert whole[i] == expected;
      if i < |a| {
        assert line == a[i] && (ra + rb)[i] == ra[i];
      } else {
        assert line == b[i - |a|] && (ra + rb)[i] == rb[i - |a|];
      }
    }
  }

  /** When neither key is a prefix of the other, no line carries both, so two rewrites may run in either order. */
  lemma RewriteCommutes(lines: seq<string>, k1: string, v1: string, k2: string, v2: string)
    requires !StartsWith(k1, k2) && !StartsWith(k2, k1)
    ensures RewriteKey(RewriteKey(lines, k1, v1), k2, v2) == RewriteKey(RewriteKey(lines, k2, v2), k1, v1)
  {
    var r1 := RewriteKey(lines, k1, v1);
    var r2 := RewriteKey(lines, k2, v2);
    var a := RewriteKey(r1, k2, v2);
    var b := RewriteKey(r2, k1, v1);
    forall i | 0 <= i < |lines|
      ensures a[i] == b[i]
    {
      var line := lines[i];
      if StartsWith(line, k1) {
        if StartsWith(line, k2) {
          PrefixesOfOneLine(line, k1, k2);
          assert false;
        }
        assert r2[i] == line && r1[i] == KeyLine(k1, v1);
        if StartsWith(r1[i], k2) {
          PrefixesOfOneLine(r1[i], k1, k2);
          assert false;
        }
      } else if StartsWith(line, k2) {
        assert r1[i] == line && r2[i] == KeyLine(k2, v2);
        if StartsWith(r2[i], k1) {
          PrefixesOfOneLine(r2[i], k2, k1);
          assert false;
        }
      } else {
        assert r1[i] == line && r2[i] == line;
      }
    }
  }

  /** Two prefixes of the same line are prefixes of each other. */
  lemma PrefixesOfOneLine(line: string, p: string, q: string)
    requires StartsWith(line, p) && StartsWith(line, q)
    ensures StartsWith(p, q) || StartsWith(q, p)
  {
    if |q| <= |p| {
      assert p[..|q|] == line[..|q|];
    } else {
      assert q[..|p|] == line[..|p|];
    }
  }

  /** An indented line is not matched: the prefix test does not trim. */
  lemma IndentedLineKept()
    ensures RewriteKey(["  debug = x\n"], "debug", "true") == ["  debug = x\n"]
  {
    assert "  debug = x\n"[..5][0] == ' ';
  }

  /** A longer key that merely begins with the key is matched and replaced. */
  lemma LongerKeyReplaced()
    ensures RewriteKey(["debugger = 1\n"], "debug", "true") == ["debug = true\n"]
  {
    assert "debugger = 1\n"[..5] == "debug";
    var r := RewriteKey(["debugger = 1\n"], "debug", "true");
    assert r[0] == KeyLine("debug", "true") == "debug = true\n";
  }
}
