/**
  The configuration module: the `.env` line parser, the load rule that copies parsed lines
  into the process environment (first existing file only, existing variables kept unless
  overriding, any error ending the load silently), and the settings read from it.
*/
module Config {
  import opened Wrappers
  import opened Text

  // ---------------- the line parser ----------------

  predicate IsQuote(c: char) { c == '"' || c == '\'' }

  /** The text before the first `sep` (all of `s` when there is none). */
  function Before(s: string, sep: char): (r: string)
    ensures |r| <= |s| && r == s[..|r|]
    ensures sep !in r
    ensures |r| < |s| ==> s[|r|] == sep
    ensures sep !in s ==> r == s
  {
    if s == [] || s[0] == sep then [] else [s[0]] + Before(s[1..], sep)
  }

  /** `_parse_env_line`: None for blank lines, comments and lines without '='; otherwise the
      stripped text before the first '=' and the text after it, stripped of whitespace and
      then of quote characters at both ends. */
  function ParseEnvLine(line: string): (r: Option<(string, string)>)
    ensures r.None? <==> var t := Strip(line); t == "" || t[0] == '#' || '=' !in t
  {
    SplitStripped(Strip(line))
  }

  /** The parser after the line has been stripped. */
  function SplitStripped(t: string): (r: Option<(string, string)>)
    ensures r.None? <==> t == "" || t[0] == '#' || '=' !in t
  {
    if t == "" || t[0] == '#' || '=' !in t then None
    else
      var k := Before(t, '=');
      Some((Strip(k), Trim(Strip(t[|k| + 1..]), IsQuote)))
  }

  /** A parsed key has no '=' and no surrounding whitespace; a parsed value has no quote
      character at either end. */
  lemma ParsedShape(line: string)
    requires ParseEnvLine(line).Some?
    ensures var (k, v) := ParseEnvLine(line).value;
      && '=' !in k
      && k == Strip(k)
      && (v == [] || (!IsQuote(v[0]) && !IsQuote(v[|v| - 1])))
  {
    SplitShape(Strip(line));
  }

  lemma SplitShape(t: string)
    requires SplitStripped(t).Some?
    ensures var (k, v) := SplitStripped(t).value;
      && '=' !in k
      && k == Strip(k)
      && (v == [] || (!IsQuote(v[0]) && !IsQuote(v[|v| - 1])))
  {
    var k := Before(t, '=');
    assert Strip(Strip(k)) == Strip(k) by {
      KeyStripped(k);
    }
    assert '=' !in Strip(k) by {
      StripChars(k);
    }
  }

  /** How a stripped line made of key text `k`, an '=' and value text `v` splits. */
  lemma SplitOf(t: string, k: string, v: string)
    requires |k| < |t| && t[..|k|] == k && t[|k|] == '=' && t[|k| + 1..] == v
    requires '=' !in k && (k == [] || k[0] != '#')
    ensures SplitStripped(t) == Some((Strip(k), Trim(Strip(v), IsQuote)))
  {
    AssignmentShape(t, k);
    BeforePrefix(t, k);
    SplitAtFirst(t);
  }

  /** Such a line is neither blank nor a comment, and holds an '='. */
  lemma AssignmentShape(t: string, k: string)
    requires |k| < |t| && t[..|k|] == k && t[|k|] == '=' && (k == [] || k[0] != '#')
    ensures t != "" && t[0] != '#' && '=' in t
  {
    assert t[0] == if k == [] then '=' else k[0];
    assert t[|k|] in t;
  }

  /** The text before the first '=' is the '='-free prefix that an '=' follows. */
  lemma BeforePrefix(t: string, k: string)
    requires |k| < |t| && t[..|k|] == k && t[|k|] == '=' && '=' !in k
    ensures Before(t, '=') == k
  {
    var key := Before(t, '=');
    EqualsAt(t, key, |k|);
    EqualsAt(t, k, |key|);
  }

  /** Position `i` of a prefix of `t` holds the character of `t` there. */
  lemma EqualsAt(t: string, p: string, i: int)
    requires |p| <= |t| && t[..|p|] == p
    ensures 0 <= i < |p| ==> p[i] == t[i]
  {
    if 0 <= i < |p| {
      assert t[..|p|][i] == t[i];
    }
  }

  /** The pieces of `k + "=" + v`. */
  lemma JoinPieces(k: string, v: string)
    ensures var t := k + "=" + v;
      |k| < |t| && t[..|k|] == k && t[|k|] == '=' && t[|k| + 1..] == v
  {
    var t := k + "=" + v;
    assert t[..|k|] == k;
    assert t[|k| + 1..] == v;
  }

  /** A stripped line that is not a comment and has an '=' splits at its first '='. */
  lemma SplitAtFirst(t: string)
    requires t != "" && t[0] != '#' && '=' in t
    ensures var key := Before(t, '=');
      SplitStripped(t) == Some((Strip(key), Trim(Strip(t[|key| + 1..]), IsQuote)))
  {
  }

  lemma StripChars(k: string)
    ensures forall c :: c in Strip(k) ==> c in k
  {
  }

  /** A string already stripped strips to itself. */
  lemma KeyStripped(k: string)
    ensures Strip(Strip(k)) == Strip(k)
  {
    StripUnchanged(Strip(k));
  }

  /** Only the first '=' splits: the value keeps any later '='. */
  lemma ValueKeepsEquals(key: string, value: string)
    requires key != [] && '=' !in key && !IsSpace(key[0]) && !IsSpace(key[|key| - 1]) && key[0] != '#'
    requires value != [] && !IsSpace(value[|value| - 1]) && !IsQuote(value[0]) && !IsQuote(value[|value| - 1])
    requires !IsSpace(value[0])
    ensures ParseEnvLine(key + "=" + value) == Some((key, value))
  {
    LineStripped(key, value);
    LineSplits(key, value);
  }

  lemma LineStripped(key: string, value: string)
    requires key != [] && !IsSpace(key[0]) && value != [] && !IsSpace(value[|value| - 1])
    ensures Strip(key + "=" + value) == key + "=" + value
  {
    var line := key + "=" + value;
    assert line[0] == key[0];
    assert line[|line| - 1] == value[|value| - 1];
    StripUnchanged(line);
  }

  lemma LineSplits(key: string, value: string)
    requires key != [] && '=' !in key && !IsSpace(key[0]) && !IsSpace(key[|key| - 1]) && key[0] != '#'
    requires value != [] && !IsSpace(value[0]) && !IsSpace(value[|value| - 1]) && !IsQuote(value[0]) && !IsQuote(value[|value| - 1])
    ensures SplitStripped(key + "=" + value) == Some((key, value))
  {
    JoinPieces(key, value);
    SplitOf(key + "=" + value, key, value);
    StripUnchanged(key);
    StripUnchanged(value);
    TrimUnchanged(value);
  }

  lemma {:induction false} BeforeOf(key: string, value: string)
    requires '=' !in key
    ensures Before(key + "=" + value, '=') == key
  {
    if key != [] {
      assert (key + "=" + value)[1..] == key[1..] + "=" + value;
      BeforeOf(key[1..], value);
    }
  }

  lemma TrimUnchanged(v: string)
    requires v != [] && !IsQuote(v[0]) && !IsQuote(v[|v| - 1])
    ensures Trim(v, IsQuote) == v
  {
    assert TrimLeft(v, IsQuote) == v;
    assert TrimRight(v, IsQuote) == v;
  }

  // ---------------- the load rule ----------------

  /** Setting `os.environ[key]` raises for an empty name (OSError on POSIX), a name with '='
      or an embedded NUL character (ValueError). */
  predicate SetRaises(key: string, val: string) {
    key == "" || '=' in key || '\0' in key || '\0' in val
  }

  /** The environment after a load, and whether the load ran to the end of the file. */
  datatype Loaded = Loaded(env: map<string, string>, complete: bool)

  /** What the read loop does with an assignment the environment refuses: end the load, as
      the source's blanket handler does, or skip that line and go on. */
  datatype OnError = StopLoad | SkipLine

  type Entry = Option<(string, string)>

  /** The parse of every line of a file. */
  function ParseLines(lines: seq<string>): (es: seq<Entry>)
    ensures |es| == |lines|
    ensures forall i :: 0 <= i < |lines| ==> es[i] == ParseEnvLine(lines[i])
  {
    seq(|lines|, i requires 0 <= i < |lines| => ParseEnvLine(lines[i]))
  }

  /** The loop of `load_env` as written, over the parsed lines: the first assignment that
      raises ends the load, keeping what was set before it. */
  function Load(env: map<string, string>, lines: seq<Entry>, override: bool): (r: Loaded)
    decreases |lines|
  {
    if lines == [] then Loaded(env, true)
    else
      match lines[0]
      case None => Load(env, lines[1..], override)
      case Some((k, v)) =>
        if !override && k in env then Load(env, lines[1..], override)
        else if SetRaises(k, v) then Loaded(env, false)
        else Load(env[k := v], lines[1..], override)
  }

  /** Without override, a variable that was already set keeps its value. */
  lemma {:induction false} KeepsExisting(env: map<string, string>, lines: seq<Entry>, k: string)
    requires k in env
    ensures k in Load(env, lines, false).env && Load(env, lines, false).env[k] == env[k]
    decreases |lines|
  {
    if lines != [] {
      match lines[0]
      case None => KeepsExisting(env, lines[1..], k);
      case Some((k', v)) =>
        if k' in env {
          KeepsExisting(env, lines[1..], k);
        } else if !SetRaises(k', v) {
          KeepsExisting(env[k' := v], lines[1..], k);
        }
    }
  }

  /** The value the first line assigning `k` gives it. */
  function FirstValue(lines: seq<Entry>, k: string): Option<string> {
    if lines == [] then None
    else match lines[0]
      case Some((k', v)) => if k' == k then Some(v) else FirstValue(lines[1..], k)
      case None => FirstValue(lines[1..], k)
  }

  /** The value the last line assigning `k` gives it. */
  function LastValue(lines: seq<Entry>, k: string): Option<string> {
    if lines == [] then None
    else
      var later := LastValue(lines[1..], k);
      if later.Some? then later
      else match lines[0]
        case Some((k', v)) => if k' == k then Some(v) else None
        case None => None
  }

  /** Without override, a completed load gives a new variable the value of its first line. */
  lemma {:induction false} FirstOccurrenceWins(env: map<string, string>, lines: seq<Entry>, k: string)
    requires k !in env && Load(env, lines, false).complete
    ensures FirstValue(lines, k).Some? ==> k in Load(env, lines, false).env && Load(env, lines, false).env[k] == FirstValue(lines, k).value
    ensures FirstValue(lines, k).None? ==> k !in Load(env, lines, false).env
    decreases |lines|
  {
    if lines != [] {
      match lines[0]
      case None => FirstOccurrenceWins(env, lines[1..], k);
      case Some((k', v)) =>
        if k' in env {
          FirstOccurrenceWins(env, lines[1..], k);
        } else if k' == k {
          KeepsExisting(env[k := v], lines[1..], k);
        } else {
          FirstOccurrenceWins(env[k' := v], lines[1..], k);
        }
    }
  }

  /** With override, a completed load gives every assigned variable the value of its last line. */
  lemma {:induction false} LastOccurrenceWins(env: map<string, string>, lines: seq<Entry>, k: string)
    requires Load(env, lines, true).complete
    ensures LastValue(lines, k).Some? ==> k in Load(env, lines, true).env && Load(env, lines, true).env[k] == LastValue(lines, k).value
    ensures LastValue(lines, k).None? ==> (k in Load(env, lines, true).env <==> k in env)
    ensures LastValue(lines, k).None? && k in env ==> Load(env, lines, true).env[k] == env[k]
    decreases |lines|
  {
    if lines != [] {
      match lines[0]
      case None => LastOccurrenceWins(env, lines[1..], k);
      case Some((k', v)) =>
        LastOccurrenceWins(env[k' := v], lines[1..], k);
    }
  }

  /** A value with no whitespace or quote at either end. */
  predicate PlainValue(v: string) {
    v != [] && !IsSpace(v[0]) && !IsSpace(v[|v| - 1]) && !IsQuote(v[0]) && !IsQuote(v[|v| - 1])
  }

  /** A `key=value` line the parser reads back verbatim and the environment accepts. */
  predicate PlainAssignment(key: string, value: string) {
    && key != [] && '=' !in key && !IsSpace(key[0]) && !IsSpace(key[|key| - 1]) && key[0] != '#'
    && PlainValue(value) && '\0' !in key && '\0' !in value
  }

  /** A line "=v" parses to an empty name. */
  lemma EmptyKeyLine(v: string)
    requires PlainValue(v)
    ensures ParseEnvLine("=" + v) == Some(("", v))
  {
    EmptyKeyStripped(v);
    EmptyKeySplits(v);
  }

  lemma EmptyKeyStripped(v: string)
    requires PlainValue(v)
    ensures Strip("=" + v) == "=" + v
  {
    assert ("=" + v)[|"=" + v| - 1] == v[|v| - 1];
    StripUnchanged("=" + v);
  }

  lemma EmptyKeySplits(v: string)
    requires PlainValue(v)
    ensures SplitStripped("=" + v) == Some(("", v))
  {
    assert "=" + v == "" + "=" + v;
    JoinPieces("", v);
    SplitOf("=" + v, "", v);
    StripUnchanged("");
    StripUnchanged(v);
    TrimUnchanged(v);
  }

  /** Finding, as written: a line with an empty name (such as "=x") raises inside the loop and
      the blanket handler drops every later line, so a well-formed "A=1" after it is never loaded. */
  lemma EmptyKeyStopsLoad(env: map<string, string>, v: string, key: string, value: string)
    requires PlainValue(v) && PlainAssignment(key, value) && "" !in env && key !in env
    ensures Load(env, ParseLines(["=" + v, key + "=" + value]), false) == Loaded(env, false)
    ensures key !in Load(env, ParseLines(["=" + v, key + "=" + value]), false).env
  {
    var es := ParseLines(["=" + v, key + "=" + value]);
    EmptyKeyLine(v);
    StopsAtEmptyKey(env, es, v);
  }

  lemma StopsAtEmptyKey(env: map<string, string>, es: seq<Entry>, v: string)
    requires es != [] && es[0] == Some(("", v)) && "" !in env
    ensures Load(env, es, false) == Loaded(env, false)
  {
  }

  /** The evidently intended loop: a line whose assignment would raise is skipped and the
      load goes on. */
  function LoadSkipping(env: map<string, string>, lines: seq<Entry>, override: bool): (r: map<string, string>)
    decreases |lines|
  {
    if lines == [] then env
    else
      match lines[0]
      case None => LoadSkipping(env, lines[1..], override)
      case Some((k, v)) =>
        if (!override && k in env) || SetRaises(k, v) then LoadSkipping(env, lines[1..], override)
        else LoadSkipping(env[k := v], lines[1..], override)
  }

  /** With skipping, a bad line never costs the lines after it: a variable whose first line
      is well-formed and new gets that line's value, wherever bad lines occur. */
  lemma {:induction false} SkippingLoadsFirst(env: map<string, string>, lines: seq<Entry>, k: string)
    requires k !in env && FirstValue(lines, k).Some? && !SetRaises(k, FirstValue(lines, k).value)
    ensures k in LoadSkipping(env, lines, false) && LoadSkipping(env, lines, false)[k] == FirstValue(lines, k).value
    decreases |lines|
  {
    match lines[0]
    case None => SkippingLoadsFirst(env, lines[1..], k);
    case Some((k', v)) =>
      if k' == k {
        SkippingKeeps(env[k := v], lines[1..], k);
      } else if k' in env || SetRaises(k', v) {
        SkippingLoadsFirst(env, lines[1..], k);
      } else {
        SkippingLoadsFirst(env[k' := v], lines[1..], k);
      }
  }

  lemma {:induction false} SkippingKeeps(env: map<string, string>, lines: seq<Entry>, k: string)
    requires k in env
    ensures k in LoadSkipping(env, lines, false) && LoadSkipping(env, lines, false)[k] == env[k]
    decreases |lines|
  {
    if lines != [] {
      match lines[0]
      case None => SkippingKeeps(env, lines[1..], k);
      case Some((k', v)) =>
        if k' in env || SetRaises(k', v) {
          SkippingKeeps(env, lines[1..], k);
        } else {
          SkippingKeeps(env[k' := v], lines[1..], k);
        }
    }
  }

  /** The skipping load loads the well-formed line that follows a line with an empty name. */
  lemma SkippingRecovers(env: map<string, string>, v: string, key: string, value: string)
    requires PlainValue(v) && PlainAssignment(key, value) && key !in env
    ensures var es := ParseLines(["=" + v, key + "=" + value]);
      key in LoadSkipping(env, es, false) && LoadSkipping(env, es, false)[key] == value
  {
    var es := ParseLines(["=" + v, key + "=" + value]);
    EmptyKeyLine(v);
    ValueKeepsEquals(key, value);
    SkipsEmptyKey(env, es, v, key, value);
  }

  lemma SkipsEmptyKey(env: map<string, string>, es: seq<Entry>, v: string, key: string, value: string)
    requires |es| == 2 && es[0] == Some(("", v)) && es[1] == Some((key, value))
    requires key != [] && '=' !in key && '\0' !in key && '\0' !in value && key !in env
    ensures key in LoadSkipping(env, es, false) && LoadSkipping(env, es, false)[key] == value
  {
    assert SetRaises("", v);
    assert !SetRaises(key, value);
    var rest := es[1..];
    assert rest == [Some((key, value))] && rest[1..] == [];
    assert LoadSkipping(env, es, false) == LoadSkipping(env, rest, false);
    assert LoadSkipping(env, rest, false) == LoadSkipping(env[key := value], [], false);
  }

  /** The candidate files: the explicit path when given and non-empty, then the project-root
      and backend `.env` files. */
  function Candidates(explicit: Option<string>, rootEnv: string, backendEnv: string): (ps: seq<string>)
    ensures |ps| == if explicit.Some? && explicit.value != "" then 3 else 2
    ensures ps[|ps| - 2..] == [rootEnv, backendEnv]
  {
    (if explicit.Some? && explicit.value != "" then [explicit.value] else []) + [rootEnv, backendEnv]
  }

  /** The first candidate that is a file. */
  function FirstFile(ps: seq<string>, isFile: string -> bool): (r: Option<string>)
    ensures r.Some? ==> r.value in ps && isFile(r.value)
    ensures r.None? ==> forall p :: p in ps ==> !isFile(p)
    ensures r.Some? ==> exists i :: 0 <= i < |ps| && ps[i] == r.value && forall j :: 0 <= j < i ==> !isFile(ps[j])
  {
    if ps == [] then None
    else if isFile(ps[0]) then Some(ps[0])
    else
      var r := FirstFile(ps[1..], isFile);
      assert forall p :: p in ps[1..] ==> p in ps;
      if r.Some? then
        var i :| 0 <= i < |ps[1..]| && ps[1..][i] == r.value && forall j :: 0 <= j < i ==> !isFile(ps[1..][j]);
        assert ps[i + 1] == r.value;
        r
      else r
  }

  /** The process environment, which `load_env` changes in place. */
  class Environment {
    var vars: map<string, string>

    constructor(initial: map<string, string>)
      ensures vars == initial
    {
      vars := initial;
    }

    /** `get(key, default)`. */
    function Get(key: string, default: Option<string>): (r: Option<string>)
      reads this
      ensures key in vars ==> r == Some(vars[key])
      ensures key !in vars ==> r == default
    {
      if key in vars then Some(vars[key]) else default
    }

    /** The read loop of `load_env` over one file's lines; `onError` chooses between the
        source's handling of a failing assignment and the corrected one. */
    method LoadLines(lines: seq<string>, override: bool, onError: OnError)
      modifies this
      ensures onError == StopLoad ==> vars == Load(old(vars), ParseLines(lines), override).env
      ensures onError == SkipLine ==> vars == LoadSkipping(old(vars), ParseLines(lines), override)
    {
      var i := 0;
      while i < |lines|
        invariant 0 <= i <= |lines|
        invariant onError == StopLoad ==>
          Load(vars, ParseLines(lines)[i..], override) == Load(old(vars), ParseLines(lines), override)
        invariant onError == SkipLine ==>
          LoadSkipping(vars, ParseLines(lines)[i..], override) == LoadSkipping(old(vars), ParseLines(lines), override)
      {
        assert ParseLines(lines)[i..][1..] == ParseLines(lines)[i + 1..];
        var parsed := ParseEnvLine(lines[i]);
        if parsed.Some? {
          var (key, val) := parsed.value;
          if override || key !in vars {
            if SetRaises(key, val) {
              if onError == StopLoad {
                return;
              }
            } else {
              vars := vars[key := val];
            }
          }
        }
        i := i + 1;
      }
    }

    /** `load_env`: only the first existing candidate is read; none, or an unreadable file,
        leaves the environment unchanged. */
    method LoadEnv(explicit: Option<string>, override: bool, rootEnv: string, backendEnv: string,
                   isFile: string -> bool, read: string -> Option<seq<string>>, onError: OnError)
      modifies this
      ensures var f := FirstFile(Candidates(explicit, rootEnv, backendEnv), isFile);
        f.None? || read(f.value).None? ==> vars == old(vars)
      ensures var f := FirstFile(Candidates(explicit, rootEnv, backendEnv), isFile);
        f.Some? && read(f.value).Some? && onError == StopLoad ==>
          vars == Load(old(vars), ParseLines(read(f.value).value), override).env
      ensures var f := FirstFile(Candidates(explicit, rootEnv, backendEnv), isFile);
        f.Some? && read(f.value).Some? && onError == SkipLine ==>
          vars == LoadSkipping(old(vars), ParseLines(read(f.value).value), override)
    {
      var f := FirstFile(Candidates(explicit, rootEnv, backendEnv), isFile);
      if f.None? {
        return;
      }
      var text := read(f.value);
      if text.None? {
        return;
      }
      LoadLines(text.value, override, onError);
    }
  }

  // ---------------- settings ----------------

  /** `UVICORN_PORT`: int() of the variable, 8000 when it is unset, empty or not an integer. */
  function Port(value: Option<string>): (port: int)
    ensures value.None? || value == Some("") ==> port == 8000
    ensures value.Some? && ParseInt(value.value).None? ==> port == 8000
    ensures value.Some? && ParseInt(value.value).Some? ==> port == ParseInt(value.value).value
  {
    match value
    case None => 8000
    case Some(s) => if s == "" then 8000 else ParseInt(s).GetOr(8000)
  }

  /** A port written in decimal is read back. */
  lemma PortOfDigits(n: nat)
    ensures Port(Some(NatToString(n))) == n
  {
    ParseIntOfNat(n);
  }

  /** `UVICORN_HOST` and `GEMINI_API_KEY`: an unset or empty variable gives the default. */
  function Setting(value: Option<string>, default: string): (r: string)
    ensures value.Some? && value.value != "" ==> r == value.value
    ensures value.None? || value == Some("") ==> r == default
  {
    if value.Some? && value.value != "" then value.value else default
  }
}
