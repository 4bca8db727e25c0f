/** The `.env.local` loader that scripts/check-schema.ts and
    scripts/verify-supabase.ts both carry, line for line: when the file
    exists, its text is split on newlines, each line on `=`, and a line
    whose first two pieces are both non-empty sets the trimmed first piece
    to the trimmed second piece in the process environment. */
module EnvFile {
  import opened Wrappers
  import JsString

  /** The position of the first `c` in `s`, or -1 when there is none. */
  function FirstIndex(s: string, c: char): (r: int)
    ensures -1 <= r < |s|
    ensures r == -1 <==> c !in s
    ensures r >= 0 ==> s[r] == c && c !in s[..r]
  {
    if s == [] then -1
    else if s[0] == c then 0
    else
      var r := FirstIndex(s[1..], c);
      assert c in s ==> c in s[1..] by {
        if c in s {
          var k :| 0 <= k < |s| && s[k] == c;
          assert s[1..][k - 1] == c;
        }
      }
      assert r >= 0 ==> s[..r + 1] == [s[0]] + s[1..][..r];
      if r == -1 then -1 else r + 1
  }

  /** The text before the first `c`, all of `s` when there is none. */
  function Before(s: string, c: char): string
  {
    var i := FirstIndex(s, c);
    if i == -1 then s else s[..i]
  }

  /** The text after the first `c`. */
  function After(s: string, c: char): string
    requires c in s
  {
    s[FirstIndex(s, c) + 1..]
  }

  /** `split` on a string that starts with the separator starts with an
      empty piece. */
  lemma SplitLeadingSeparator(t: string, c: char)
    ensures JsString.Split([c] + t, c) == [""] + JsString.Split(t, c)
  {
    assert ([c] + t)[1..] == t;
  }

  /** Splitting at a separator with no separator before it: the text
      before it is the first piece, the pieces of the text after it follow. */
  lemma SplitAtSeparator(s: string, c: char, i: int)
    requires 0 <= i < |s| && s[i] == c && c !in s[..i]
    ensures JsString.Split(s, c) == [s[..i]] + JsString.Split(s[i + 1..], c)
  {
    var w, t := s[..i], s[i + 1..];
    assert s == w + ([c] + t);
    JsString.SplitPrepend(w, [c] + t, c);
    SplitLeadingSeparator(t, c);
    assert w + "" == w;
  }

  /** The first piece of `split` is the text before the first separator, and
      when there is a separator the other pieces are those of the text after it. */
  lemma SplitAtFirst(s: string, c: char)
    ensures JsString.Split(s, c)[0] == Before(s, c)
    ensures c in s ==> JsString.Split(s, c)[1..] == JsString.Split(After(s, c), c)
  {
    var i := FirstIndex(s, c);
    if i == -1 {
      JsString.SplitJoin([s], c);
    } else {
      SplitAtSeparator(s, c, i);
    }
  }

  /** `const [key, value] = line.split('=')` and the `key && value` test:
      the trimmed pair, or nothing for this line. Only a line with an `=`
      gives a pair, and neither part of it starts or ends with whitespace. */
  function ParseLine(line: string): (r: Option<(string, string)>)
    ensures r.Some? ==> '=' in line
    ensures r.Some? ==> var (key, value) := r.value;
      && (key == [] || (!JsString.IsJsSpace(key[0]) && !JsString.IsJsSpace(key[|key| - 1])))
      && (value == [] || (!JsString.IsJsSpace(value[0]) && !JsString.IsJsSpace(value[|value| - 1])))
  {
    var pieces := JsString.Split(line, '=');
    if pieces[0] != "" && |pieces| >= 2 && pieces[1] != "" then
      Some((JsString.Trim(pieces[0]), JsString.Trim(pieces[1])))
    else None
  }

  /** A line sets a variable exactly when it has an `=`, the text before
      its first `=` is non-empty and so is the text from there to the next
      `=` (or the end). The variable is the first text trimmed and its value
      the second text trimmed; anything after a second `=` is ignored. */
  lemma ParseLineMeaning(line: string)
    ensures ParseLine(line).Some? <==>
      '=' in line && Before(line, '=') != "" && Before(After(line, '='), '=') != ""
    ensures ParseLine(line).Some? ==>
      ParseLine(line).value == (JsString.Trim(Before(line, '=')),
                                JsString.Trim(Before(After(line, '='), '=')))
  {
    SplitAtFirst(line, '=');
    if '=' in line {
      SplitAtFirst(After(line, '='), '=');
      assert JsString.Split(line, '=')[1] == JsString.Split(After(line, '='), '=')[0];
    }
  }

  /** Whether `line` sets `key`. The process environment refuses an empty
      name, so a line whose key trims to nothing sets no variable. */
  predicate Sets(line: string, key: string)
  {
    ParseLine(line).Some? && ParseLine(line).value.0 == key && key != ""
  }

  /** The environment after one line's forEach step; assigning to the empty
      name leaves the environment as it was. */
  function ApplyLine(env: map<string, string>, line: string): map<string, string>
  {
    match ParseLine(line)
    case Some((key, value)) => if key == "" then env else env[key := value]
    case None => env
  }

  /** The environment after the lines, in order. No variable is removed,
      and every new variable is set by some line. */
  function ApplyLines(env: map<string, string>, lines: seq<string>): (r: map<string, string>)
    ensures forall k :: k in env ==> k in r
    ensures forall k :: k in r && k !in env ==> exists i :: 0 <= i < |lines| && Sets(lines[i], k)
  {
    if lines == [] then env else ApplyLine(ApplyLines(env, lines[..|lines| - 1]), lines[|lines| - 1])
  }

  /** Line `i` is the last line that sets `key`. */
  predicate LastSetting(lines: seq<string>, key: string, i: int)
  {
    0 <= i < |lines| && Sets(lines[i], key) && forall l :: i < l < |lines| ==> !Sets(lines[l], key)
  }

  /** What one line does to one variable. */
  lemma ApplyLineEffect(env: map<string, string>, line: string, key: string)
    ensures Sets(line, key) ==>
      key in ApplyLine(env, line) && ApplyLine(env, line)[key] == ParseLine(line).value.1
    ensures !Sets(line, key) ==>
      (key in ApplyLine(env, line) <==> key in env)
      && (key in env ==> ApplyLine(env, line)[key] == env[key])
  {
  }

  /** Later lines overwrite earlier ones: a variable ends with the value of
      the last line that sets it. */
  lemma {:induction false} ApplyLinesLastWins(env: map<string, string>, lines: seq<string>, key: string, i: int)
    requires LastSetting(lines, key, i)
    ensures key in ApplyLines(env, lines)
    ensures ApplyLines(env, lines)[key] == ParseLine(lines[i]).value.1
  {
    var init := lines[..|lines| - 1];
    var last := lines[|lines| - 1];
    assert ApplyLines(env, lines) == ApplyLine(ApplyLines(env, init), last);
    ApplyLineEffect(ApplyLines(env, init), last, key);
    if i < |lines| - 1 {
      assert !Sets(last, key);
      assert LastSetting(init, key, i) by {
        forall l | i < l < |init| ensures !Sets(init[l], key) {
          assert init[l] == lines[l];
        }
      }
      ApplyLinesLastWins(env, init, key, i);
    }
  }

  /** A variable that no line sets keeps its value, or stays unset. */
  lemma {:induction false} ApplyLinesKeepsUnset(env: map<string, string>, lines: seq<string>, key: string)
    requires forall i :: 0 <= i < |lines| ==> !Sets(lines[i], key)
    ensures key in ApplyLines(env, lines) <==> key in env
    ensures key in env ==> ApplyLines(env, lines)[key] == env[key]
  {
    if lines != [] {
      var init := lines[..|lines| - 1];
      forall l | 0 <= l < |init| ensures !Sets(init[l], key) {
        assert init[l] == lines[l];
      }
      ApplyLinesKeepsUnset(env, init, key);
      ApplyLineEffect(ApplyLines(env, init), lines[|lines| - 1], key);
    }
  }

  /** A value stops at a second `=`: whatever follows it, `=` signs
      included, is ignored. */
  lemma ValueStopsAtSecondEquals(key: string, value: string, rest: string)
    requires key != [] && value != [] && '=' !in key && '=' !in value
    ensures ParseLine(key + "=" + value + "=" + rest) == Some((JsString.Trim(key), JsString.Trim(value)))
  {
    var tail := "=" + rest;
    var afterKey := "=" + (value + tail);
    assert key + "=" + value + "=" + rest == key + afterKey;
    JsString.SplitPrepend(key, afterKey, '=');
    SplitLeadingSeparator(value + tail, '=');
    JsString.SplitPrepend(value, tail, '=');
    SplitLeadingSeparator(rest, '=');
    assert key + "" == key && value + "" == value;
  }

  /** A line sets nothing when its key piece is empty, when nothing follows
      its first `=`, or when it has no `=` at all. */
  lemma IncompleteLinesIgnored(key: string, value: string)
    requires '=' !in key
    ensures ParseLine("=" + value) == None
    ensures ParseLine(key + "=") == None
    ensures ParseLine(key) == None
  {
    SplitLeadingSeparator(value, '=');
    assert JsString.Join([key, ""], '=') == key + "=";
    JsString.SplitJoin([key, ""], '=');
    JsString.SplitJoin([key], '=');
  }

  /** No whitespace character is an `=`. */
  lemma NoEqualsInSpace(s: string)
    requires JsString.AllSpace(s)
    ensures '=' !in s
  {
  }

  /** Whitespace around the key and around the value, a Windows carriage
      return included, is trimmed away. */
  lemma SurroundingSpaceTrimmed(key: string, value: string, s1: string, s2: string, s3: string, s4: string)
    requires key != [] && !JsString.IsJsSpace(key[0]) && !JsString.IsJsSpace(key[|key| - 1])
    requires value != [] && !JsString.IsJsSpace(value[0]) && !JsString.IsJsSpace(value[|value| - 1])
    requires '=' !in key && '=' !in value
    requires JsString.AllSpace(s1) && JsString.AllSpace(s2) && JsString.AllSpace(s3) && JsString.AllSpace(s4)
    ensures ParseLine(s1 + key + s2 + "=" + s3 + value + s4) == Some((key, value))
  {
    var left, right := s1 + key + s2, s3 + value + s4;
    NoEqualsInSpace(s1); NoEqualsInSpace(s2); NoEqualsInSpace(s3); NoEqualsInSpace(s4);
    assert s1 + key + s2 + "=" + s3 + value + s4 == JsString.Join([left, right], '=');
    JsString.SplitJoin([left, right], '=');
    JsString.TrimPadded(s1, key, s2);
    JsString.TrimPadded(s3, value, s4);
  }

  /** A key of nothing but whitespace passes the `key && value` test but
      names the empty variable, which the environment refuses: the line
      changes nothing. */
  lemma BlankKeyIgnored(env: map<string, string>, blank: string, value: string)
    requires blank != [] && JsString.AllSpace(blank)
    requires value != [] && '=' !in value
    ensures ParseLine(blank + "=" + value).Some?
    ensures ApplyLine(env, blank + "=" + value) == env
  {
    NoEqualsInSpace(blank);
    assert blank + "=" + value == JsString.Join([blank, value], '=');
    JsString.SplitJoin([blank, value], '=');
  }

  /** A value of nothing but whitespace becomes empty, and still sets the key. */
  lemma BlankValueSetsEmpty(key: string, blank: string)
    requires key != [] && !JsString.IsJsSpace(key[0]) && !JsString.IsJsSpace(key[|key| - 1])
    requires '=' !in key
    requires blank != [] && JsString.AllSpace(blank)
    ensures ParseLine(key + "=" + blank) == Some((key, ""))
  {
    NoEqualsInSpace(blank);
    assert key + "=" + blank == JsString.Join([key, blank], '=');
    JsString.SplitJoin([key, blank], '=');
    JsString.TrimPadded([], key, []);
    assert [] + key + [] == key;
  }

  /** `process.env`, as far as the loader writes it. */
  class ProcessEnv {
    var vars: map<string, string>

    constructor (initial: map<string, string>)
      ensures vars == initial
    {
      vars := initial;
    }

    /** The loader: nothing happens when the file is absent; otherwise each
        line of its text is applied in order. */
    method LoadDotEnv(fileExists: bool, contents: string)
      modifies this
      ensures vars == (if fileExists then ApplyLines(old(vars), JsString.Split(contents, '\n')) else old(vars))
    {
      if !fileExists {
        return;
      }
      var lines := JsString.Split(contents, '\n');
      var i := 0;
      while i < |lines|
        invariant 0 <= i <= |lines|
        invariant vars == ApplyLines(old(vars), lines[..i])
      {
        assert lines[..i + 1][..i] == lines[..i];
        assert ApplyLines(old(vars), lines[..i + 1]) == ApplyLine(vars, lines[i]);
        var parsed := ParseLine(lines[i]);
        if parsed.Some? {
          var (key, value) := parsed.value;
          if key != "" {
            vars := vars[key := value];
          }
        }
        i := i + 1;
      }
      assert lines[..i] == lines;
    }
  }
}
