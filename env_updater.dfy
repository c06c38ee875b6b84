/**
 * Rewriting of the contract-address lines of a `.env` file
 * (scripts/environment/envUpdater.mjs, `updateEnvAddresses`).
 *
 * The file is split on '\n', every line that is not a comment or blank and
 * whose trimmed text starts with `KEY=` for one of the given keys is replaced
 * by `KEY=value`, the keys that no line carried are appended, and the lines
 * are joined with '\n' again. The file system is a map from path to content.
 */
module EnvUpdater {

  datatype Option<T> = None | Some(value: T)

  /** The `addresses` argument: its keys in `Object.keys` order, and their
      values. A key without an entry in `values` stands for a falsy value,
      which the source renders as the empty string (`addresses[key] || ''`). */
  datatype Addresses = Addresses(keys: seq<string>, values: map<string, string>)
  {
    function ValueOf(k: string): string
    {
      if k in values then values[k] else ""
    }
  }

  /** The line `KEY=value` written for key `k`. */
  function Setting(a: Addresses, k: string): string
  {
    k + "=" + a.ValueOf(k)
  }

  /** One `KEY=value` line per key of `ks`, in the order of `ks`. */
  function Settings(a: Addresses, ks: seq<string>): (r: seq<string>)
    ensures |r| == |ks|
  {
    seq(|ks|, i requires 0 <= i < |ks| => Setting(a, ks[i]))
  }

  // ---------------------------------------------------------------------
  // String helpers with JavaScript's meaning
  // ---------------------------------------------------------------------

  /** The characters `String.prototype.trim` removes: WhiteSpace (tab, vertical
      tab, form feed, space, no-break space, BOM and the space separators)
      and LineTerminator. */
  predicate IsSpace(c: char)
  {
    || c == '\t' || c == '\U{000B}' || c == '\U{000C}' || c == ' '
    || c == '\U{00A0}' || c == '\U{FEFF}' || c == '\U{1680}'
    || ('\U{2000}' <= c <= '\U{200A}')
    || c == '\U{202F}' || c == '\U{205F}' || c == '\U{3000}'
    || c == '\n' || c == '\r' || c == '\U{2028}' || c == '\U{2029}'
  }

  function TrimStart(s: string): string
  {
    if |s| > 0 && IsSpace(s[0]) then TrimStart(s[1..]) else s
  }

  function TrimEnd(s: string): string
  {
    if |s| > 0 && IsSpace(s[|s| - 1]) then TrimEnd(s[..|s| - 1]) else s
  }

  /** `String.prototype.trim`. */
  function Trim(s: string): string
  {
    TrimEnd(TrimStart(s))
  }

  /** Neither end of a trimmed string is white space, and a string without
      white space at its ends is its own trim. */
  lemma TrimTrims(s: string)
    ensures var r := Trim(s);
      && (|r| > 0 ==> !IsSpace(r[0]) && !IsSpace(r[|r| - 1]))
      && (|s| == 0 || (!IsSpace(s[0]) && !IsSpace(s[|s| - 1])) ==> r == s)
  {
    var t := TrimStart(s);
    TrimStartTrims(s);
    TrimEndTrims(t);
  }

  lemma {:induction false} TrimStartTrims(s: string)
    ensures var r := TrimStart(s);
      && (|r| > 0 ==> !IsSpace(r[0]))
      && (|s| == 0 || !IsSpace(s[0]) ==> r == s)
  {
    if |s| > 0 && IsSpace(s[0]) {
      TrimStartTrims(s[1..]);
    }
  }

  lemma {:induction false} TrimEndTrims(s: string)
    ensures var r := TrimEnd(s);
      && (|r| > 0 ==> !IsSpace(r[|r| - 1]))
      && r <= s
      && (|s| == 0 || !IsSpace(s[|s| - 1]) ==> r == s)
  {
    if |s| > 0 && IsSpace(s[|s| - 1]) {
      TrimEndTrims(s[..|s| - 1]);
    }
  }

  predicate StartsWith(s: string, prefix: string)
  {
    |prefix| <= |s| && s[..|prefix|] == prefix
  }

  /** `content.split('\n')`: always at least one piece, none holding '\n'. */
  function Split(s: string): (r: seq<string>)
    ensures |r| >= 1
    ensures forall l :: l in r ==> '\n' !in l
  {
    if |s| == 0 then [""]
    else
      var rest := Split(s[1..]);
      if s[0] == '\n' then [""] + rest
      else [[s[0]] + rest[0]] + rest[1..]
  }

  /** `lines.join('\n')`. */
  function Join(lines: seq<string>): (r: string)
    ensures |lines| >= 1 ==> lines[0] <= r
    ensures |lines| >= 2 ==> '\n' in r
  {
    if |lines| == 0 then ""
    else if |lines| == 1 then lines[0]
    else lines[0] + "\n" + Join(lines[1..])
  }

  lemma {:induction false} JoinSplit(s: string)
    ensures Join(Split(s)) == s
  {
    if |s| > 0 {
      var rest := Split(s[1..]);
      JoinSplit(s[1..]);
      if s[0] == '\n' {
        assert ([""] + rest)[1..] == rest;
      } else {
        var r := [[s[0]] + rest[0]] + rest[1..];
        if |rest| > 1 {
          assert r[1..] == rest[1..];
          assert Join(rest) == rest[0] + "\n" + Join(rest[1..]);
        }
      }
    }
  }

  lemma {:induction false} SplitJoin(lines: seq<string>)
    requires |lines| >= 1
    requires forall l :: l in lines ==> '\n' !in l
    ensures Split(Join(lines)) == lines
  {
    if |lines| == 1 {
      SplitLine(lines[0]);
    } else {
      SplitJoin(lines[1..]);
      SplitConcat(lines[0], Join(lines[1..]));
    }
  }

  /** A string without '\n' is a single piece. */
  lemma {:induction false} SplitLine(l: string)
    requires '\n' !in l
    ensures Split(l) == [l]
  {
    if |l| > 0 {
      assert l[1..] == l[|l[..1]|..];
      assert forall c :: c in l[1..] ==> c in l;
      SplitLine(l[1..]);
      assert [l[0]] + l[1..] == l;
    }
  }

  /** Splitting `l + "\n" + rest` for a line `l` without '\n'. */
  lemma {:induction false} SplitConcat(l: string, rest: string)
    requires '\n' !in l
    ensures Split(l + "\n" + rest) == [l] + Split(rest)
  {
    var s := l + "\n" + rest;
    if |l| == 0 {
      assert s[0] == '\n' && s[1..] == rest;
    } else {
      assert forall c :: c in l[1..] ==> c in l;
      assert s[1..] == l[1..] + "\n" + rest;
      SplitConcat(l[1..], rest);
      assert [s[0]] + l[1..] == l;
    }
  }

  // ---------------------------------------------------------------------
  // The per-line rewrite (lines.map, envUpdater.mjs:43-57)
  // ---------------------------------------------------------------------

  /** Comments and blank lines are passed through untouched. */
  predicate Skipped(line: string)
  {
    StartsWith(Trim(line), "#") || Trim(line) == ""
  }

  /** The first key, from position `j` on, whose `KEY=` starts `t`. */
  function FirstMatchFrom(t: string, keys: seq<string>, j: nat): (r: Option<string>)
    requires j <= |keys|
    decreases |keys| - j
    ensures r.None? ==> forall m :: j <= m < |keys| ==> !StartsWith(t, keys[m] + "=")
    ensures r.Some? ==>
      exists m :: j <= m < |keys| && keys[m] == r.value && StartsWith(t, r.value + "=") &&
        forall m' :: j <= m' < m ==> !StartsWith(t, keys[m'] + "=")
  {
    if j == |keys| then None
    else if StartsWith(t, keys[j] + "=") then Some(keys[j])
    else FirstMatchFrom(t, keys, j + 1)
  }

  /** The key that claims `line`, if any: the first key in key order. */
  function LineKey(line: string, keys: seq<string>): Option<string>
  {
    if Skipped(line) then None else FirstMatchFrom(Trim(line), keys, 0)
  }

  /** A line is either kept as it is or replaced by the setting of one of
      the keys; comments and blank lines are always kept. */
  function RewriteLine(line: string, a: Addresses): (r: string)
    ensures r == line || r in Settings(a, a.keys)
    ensures Skipped(line) ==> r == line
  {
    match LineKey(line, a.keys)
    case None => line
    case Some(k) => SettingListed(a, k); Setting(a, k)
  }

  lemma SettingListed(a: Addresses, k: string)
    requires k in a.keys
    ensures Setting(a, k) in Settings(a, a.keys)
  {
    var m :| 0 <= m < |a.keys| && a.keys[m] == k;
    assert Settings(a, a.keys)[m] == Setting(a, k);
  }

  function RewriteLines(lines: seq<string>, a: Addresses): (r: seq<string>)
    ensures |r| == |lines|
  {
    seq(|lines|, i requires 0 <= i < |lines| => RewriteLine(lines[i], a))
  }

  function KeySet(k: Option<string>): set<string>
  {
    if k.Some? then {k.value} else {}
  }

  /** The `presentKeys` set after the map over `lines`. */
  function PresentKeys(lines: seq<string>, keys: seq<string>): set<string>
    decreases |lines|
  {
    if |lines| == 0 then {}
    else PresentKeys(lines[..|lines| - 1], keys) + KeySet(LineKey(lines[|lines| - 1], keys))
  }

  /** The keys of `keys` not in `present`, in key order (envUpdater.mjs:60-64). */
  function MissingKeys(keys: seq<string>, present: set<string>): (r: seq<string>)
    ensures |r| <= |keys|
    decreases |keys|
  {
    if |keys| == 0 then []
    else
      var last := keys[|keys| - 1];
      MissingKeys(keys[..|keys| - 1], present) + (if last in present then [] else [last])
  }

  /** The new lines of an existing file (envUpdater.mjs:38-64). */
  function UpdateLines(lines: seq<string>, a: Addresses): (r: seq<string>)
    ensures |lines| <= |r| <= |lines| + |a.keys|
  {
    RewriteLines(lines, a) + Settings(a, MissingKeys(a.keys, PresentKeys(lines, a.keys)))
  }

  /** The new content of an existing file; with no keys the content is
      left exactly as it was. */
  function UpdateContent(content: string, a: Addresses): (r: string)
    ensures a.keys == [] ==> r == content
  {
    var lines := Split(content);
    assert a.keys == [] ==> UpdateLines(lines, a) == lines;
    JoinSplit(content);
    Join(UpdateLines(lines, a))
  }

  /** The content of a file created from scratch (envUpdater.mjs:32, 76). */
  function CreatedContent(a: Addresses): (r: string)
    ensures a.keys == [] ==> r == ""
    ensures |a.keys| >= 1 ==> Setting(a, a.keys[0]) <= r
    ensures |a.keys| >= 2 ==> '\n' in r
  {
    Join(Settings(a, a.keys))
  }

  // ---------------------------------------------------------------------
  // The rewrite as the source performs it
  // ---------------------------------------------------------------------

  /** The body of the `lines.map` callback, up to its result: the key that
      claims `line`, found by the loop over the keys (envUpdater.mjs:45-56). */
  method MatchKey(line: string, keys: seq<string>) returns (key: Option<string>)
    ensures key == LineKey(line, keys)
  {
    var t := Trim(line);
    key := None;
    if StartsWith(t, "#") || t == "" {
      return;
    }
    var j := 0;
    while j < |keys| && key.None?
      invariant 0 <= j <= |keys|
      invariant key.None? ==> FirstMatchFrom(t, keys, j) == FirstMatchFrom(t, keys, 0)
      invariant key.Some? ==> key == FirstMatchFrom(t, keys, 0)
    {
      if StartsWith(t, keys[j] + "=") {
        key := Some(keys[j]);
      }
      j := j + 1;
    }
  }

  lemma RewriteStep(lines: seq<string>, i: nat, a: Addresses)
    requires i < |lines|
    ensures RewriteLines(lines[..i + 1], a) == RewriteLines(lines[..i], a) + [RewriteLine(lines[i], a)]
    ensures PresentKeys(lines[..i + 1], a.keys) ==
      PresentKeys(lines[..i], a.keys) + KeySet(LineKey(lines[i], a.keys))
  {
    assert lines[..i + 1][..i] == lines[..i];
  }

  lemma MissingStep(a: Addresses, k: nat, present: set<string>)
    requires k < |a.keys|
    ensures Settings(a, MissingKeys(a.keys[..k + 1], present)) ==
      Settings(a, MissingKeys(a.keys[..k], present)) +
      (if a.keys[k] in present then [] else [Setting(a, a.keys[k])])
  {
    assert a.keys[..k + 1][..k] == a.keys[..k];
  }

  /** The map over the lines, which records the matched keys, followed by
      the loop that pushes the missing keys (envUpdater.mjs:38-64). */
  method RewriteEnvLines(lines: seq<string>, a: Addresses) returns (out: seq<string>)
    ensures out == UpdateLines(lines, a)
  {
    var mapped: seq<string> := [];
    var present: set<string> := {};
    var i := 0;
    while i < |lines|
      invariant 0 <= i <= |lines|
      invariant mapped == RewriteLines(lines[..i], a)
      invariant present == PresentKeys(lines[..i], a.keys)
    {
      var line := lines[i];
      var key := MatchKey(line, a.keys);
      mapped := mapped + [if key.Some? then Setting(a, key.value) else line];
      present := present + KeySet(key);
      RewriteStep(lines, i, a);
      i := i + 1;
    }
    assert lines[..i] == lines;

    out := mapped;
    var k := 0;
    while k < |a.keys|
      invariant 0 <= k <= |a.keys|
      invariant out == mapped + Settings(a, MissingKeys(a.keys[..k], present))
    {
      MissingStep(a, k, present);
      if a.keys[k] !in present {
        out := out + [Setting(a, a.keys[k])];
      }
      k := k + 1;
    }
    assert a.keys[..k] == a.keys;
  }

  const EnvPath: string := ".env"
  const EnvExamplePath: string := ".env.example"

  /** `updateEnvAddresses(addresses, exampleEnv)` over a file system given as
      a map from path to content (envUpdater.mjs:22-108). */
  method UpdateEnvAddresses(files: map<string, string>, a: Addresses, exampleEnv: bool)
    returns (files': map<string, string>)
    ensures EnvPath !in files ==> files' == files[EnvPath := CreatedContent(a)]
    ensures EnvPath in files && !exampleEnv ==>
      files' == files[EnvPath := UpdateContent(files[EnvPath], a)]
    ensures EnvPath in files && exampleEnv ==>
      files' == files[EnvPath := UpdateContent(files[EnvPath], a)]
                     [EnvExamplePath := if EnvExamplePath in files
                                        then UpdateContent(files[EnvExamplePath], a)
                                        else CreatedContent(a)]
  {
    if EnvPath !in files {
      files' := files[EnvPath := Join(Settings(a, a.keys))];
      return;
    }
    var lines := RewriteEnvLines(Split(files[EnvPath]), a);
    files' := files[EnvPath := Join(lines)];

    if exampleEnv {
      if EnvExamplePath !in files' {
        files' := files'[EnvExamplePath := Join(Settings(a, a.keys))];
        return;
      }
      var exampleLines := RewriteEnvLines(Split(files'[EnvExamplePath]), a);
      files' := files'[EnvExamplePath := Join(exampleLines)];
    }
  }

  // ---------------------------------------------------------------------
  // Properties of the rewrite
  // ---------------------------------------------------------------------

  /** Existing lines stay at their positions: comments and blank lines and
      lines no key claims are unchanged, a claimed line becomes exactly
      `KEY=value` for the first claiming key, and the missing keys follow. */
  lemma ExistingLinesInPlace(lines: seq<string>, a: Addresses)
    ensures |UpdateLines(lines, a)| == |lines| + |MissingKeys(a.keys, PresentKeys(lines, a.keys))|
    ensures forall i :: 0 <= i < |lines| && Skipped(lines[i]) ==> UpdateLines(lines, a)[i] == lines[i]
    ensures forall i :: 0 <= i < |lines| && LineKey(lines[i], a.keys).None? ==>
      UpdateLines(lines, a)[i] == lines[i]
    ensures forall i :: 0 <= i < |lines| && LineKey(lines[i], a.keys).Some? ==>
      UpdateLines(lines, a)[i] == Setting(a, LineKey(lines[i], a.keys).value)
    ensures UpdateLines(lines, a)[|lines|..] ==
      Settings(a, MissingKeys(a.keys, PresentKeys(lines, a.keys)))
  {
  }

  lemma {:induction false} PresentKeysIff(lines: seq<string>, keys: seq<string>, k: string)
    ensures k in PresentKeys(lines, keys) <==>
      exists i :: 0 <= i < |lines| && LineKey(lines[i], keys) == Some(k)
    decreases |lines|
  {
    if |lines| > 0 {
      var n := |lines| - 1;
      var init := lines[..n];
      PresentKeysIff(init, keys, k);
      var last := KeySet(LineKey(lines[n], keys));
      assert PresentKeys(lines, keys) == PresentKeys(init, keys) + last;
      if k in PresentKeys(init, keys) {
        var i :| 0 <= i < |init| && LineKey(init[i], keys) == Some(k);
        assert lines[i] == init[i];
      } else if k in last {
        assert LineKey(lines[n], keys) == Some(k);
      }
      if exists i :: 0 <= i < |lines| && LineKey(lines[i], keys) == Some(k) {
        var i :| 0 <= i < |lines| && LineKey(lines[i], keys) == Some(k);
        if i < n {
          assert init[i] == lines[i];
        }
      }
    }
  }

  lemma {:induction false} MissingKeysIff(keys: seq<string>, present: set<string>, k: string)
    ensures k in MissingKeys(keys, present) <==> k in keys && k !in present
    decreases |keys|
  {
    if |keys| > 0 {
      var init := keys[..|keys| - 1];
      MissingKeysIff(init, present, k);
      assert keys == init + [keys[|keys| - 1]];
    }
  }

  /** Every key ends up in the file as `KEY=value`. */
  lemma EveryKeyWritten(lines: seq<string>, a: Addresses)
    ensures forall k :: k in a.keys ==> Setting(a, k) in UpdateLines(lines, a)
  {
    var present := PresentKeys(lines, a.keys);
    var missing := MissingKeys(a.keys, present);
    var out := UpdateLines(lines, a);
    forall k | k in a.keys
      ensures Setting(a, k) in out
    {
      PresentKeysIff(lines, a.keys, k);
      MissingKeysIff(a.keys, present, k);
      if k in present {
        var i :| 0 <= i < |lines| && LineKey(lines[i], a.keys) == Some(k);
        assert out[i] == Setting(a, k);
      } else {
        var m :| 0 <= m < |missing| && missing[m] == k;
        assert out[|lines| + m] == Setting(a, k);
      }
    }
  }

  // ---------------------------------------------------------------------
  // Idempotence
  // ---------------------------------------------------------------------

  /** A key the rewrite can recognise again in the line it wrote: no '=',
      no white space or line break, and not starting a comment. */
  predicate KeyWellFormed(k: string)
  {
    && (forall c :: c in k ==> c != '=' && !IsSpace(c))
    && (|k| > 0 ==> k[0] != '#')
  }

  predicate WellFormed(a: Addresses)
  {
    && (forall k :: k in a.keys ==> KeyWellFormed(k))
    && (forall k :: k in a.keys ==> '\n' !in a.ValueOf(k))
  }

  lemma {:induction false} TrimEndKeepsPrefix(p: string, q: string)
    requires |p| > 0 && !IsSpace(p[|p| - 1])
    ensures StartsWith(TrimEnd(p + q), p)
    decreases |q|
  {
    if |q| > 0 && IsSpace(q[|q| - 1]) {
      assert (p + q)[..|p + q| - 1] == p + q[..|q| - 1];
      TrimEndKeepsPrefix(p, q[..|q| - 1]);
    } else if |q| == 0 {
      assert p + q == p;
    }
  }

  /** The trimmed text of a written line starts with `KEY=`. */
  lemma SettingTrimmed(a: Addresses, k: string)
    requires KeyWellFormed(k)
    ensures StartsWith(Trim(Setting(a, k)), k + "=")
  {
    var s := Setting(a, k);
    assert s == (k + "=") + a.ValueOf(k);
    assert s[0] == (k + "=")[0];
    assert TrimStart(s) == s;
    TrimEndKeepsPrefix(k + "=", a.ValueOf(k));
  }

  /** Two keys without '=' whose `KEY=` both start `t` are the same key. */
  lemma SamePrefixKey(t: string, k: string, k': string)
    requires KeyWellFormed(k) && KeyWellFormed(k')
    requires StartsWith(t, k + "=") && StartsWith(t, k' + "=")
    ensures k == k'
  {
    assert t[|k|] == (k + "=")[|k|] == '=';
    assert t[|k'|] == (k' + "=")[|k'|] == '=';
    assert forall i :: 0 <= i < |k| ==> t[i] == (k + "=")[i] == k[i] && k[i] in k;
    assert forall i :: 0 <= i < |k'| ==> t[i] == (k' + "=")[i] == k'[i] && k'[i] in k';
    assert |k| == |k'|;
    assert k == t[..|k|] == k';
  }

  /** The line written for a key is claimed by that same key again. */
  lemma SettingClaimedByKey(a: Addresses, k: string)
    requires WellFormed(a) && k in a.keys
    ensures LineKey(Setting(a, k), a.keys) == Some(k)
  {
    var s := Setting(a, k);
    var t := Trim(s);
    SettingTrimmed(a, k);
    if |k| > 0 {
      assert t[0] == k[0];
    } else {
      assert t[0] == '=';
    }
    assert !Skipped(s);
    var m :| 0 <= m < |a.keys| && a.keys[m] == k;
    var r := FirstMatchFrom(t, a.keys, 0);
    assert r.Some?;
    SamePrefixKey(t, k, r.value);
  }

  /** A line of the output is claimed by the same key as the input line. */
  lemma RewriteLineStable(line: string, a: Addresses)
    requires WellFormed(a)
    ensures LineKey(RewriteLine(line, a), a.keys) == LineKey(line, a.keys)
    ensures RewriteLine(RewriteLine(line, a), a) == RewriteLine(line, a)
  {
    var key := LineKey(line, a.keys);
    if key.Some? {
      var r := FirstMatchFrom(Trim(line), a.keys, 0);
      assert r.value in a.keys;
      SettingClaimedByKey(a, key.value);
    }
  }

  /** Each line of the output is its own rewrite. */
  lemma OutputLinesStable(lines: seq<string>, a: Addresses)
    requires WellFormed(a)
    ensures RewriteLines(UpdateLines(lines, a), a) == UpdateLines(lines, a)
  {
    var out := UpdateLines(lines, a);
    var present := PresentKeys(lines, a.keys);
    var missing := MissingKeys(a.keys, present);
    forall i | 0 <= i < |out|
      ensures RewriteLine(out[i], a) == out[i]
    {
      if i < |lines| {
        RewriteLineStable(lines[i], a);
      } else {
        MissingKeysIff(a.keys, present, missing[i - |lines|]);
        SettingClaimedByKey(a, missing[i - |lines|]);
      }
    }
  }

  /** After one update every key claims some line of the output. */
  lemma AllKeysPresent(lines: seq<string>, a: Addresses)
    requires WellFormed(a)
    ensures forall k :: k in a.keys ==> k in PresentKeys(UpdateLines(lines, a), a.keys)
  {
    forall k | k in a.keys
      ensures k in PresentKeys(UpdateLines(lines, a), a.keys)
    {
      KeyPresentAfter(lines, a, k);
    }
  }

  lemma KeyPresentAfter(lines: seq<string>, a: Addresses, k: string)
    requires WellFormed(a) && k in a.keys
    ensures k in PresentKeys(UpdateLines(lines, a), a.keys)
  {
    var out := UpdateLines(lines, a);
    var present := PresentKeys(lines, a.keys);
    var missing := MissingKeys(a.keys, present);
    PresentKeysIff(lines, a.keys, k);
    MissingKeysIff(a.keys, present, k);
    PresentKeysIff(out, a.keys, k);
    if k in present {
      var i :| 0 <= i < |lines| && LineKey(lines[i], a.keys) == Some(k);
      RewriteLineStable(lines[i], a);
      assert out[i] == RewriteLine(lines[i], a);
      assert LineKey(out[i], a.keys) == Some(k);
    } else {
      var m :| 0 <= m < |missing| && missing[m] == k;
      SettingClaimedByKey(a, k);
      assert out[|lines| + m] == Setting(a, k);
      assert LineKey(out[|lines| + m], a.keys) == Some(k);
    }
  }

  lemma UpdateLinesIdempotent(lines: seq<string>, a: Addresses)
    requires WellFormed(a)
    ensures UpdateLines(UpdateLines(lines, a), a) == UpdateLines(lines, a)
  {
    var out := UpdateLines(lines, a);
    OutputLinesStable(lines, a);
    AllKeysPresent(lines, a);
    NoneMissing(a.keys, PresentKeys(out, a.keys));
    assert Settings(a, []) == [];
  }

  /** A key beginning with '#' is not well formed: the line written for it
      reads as a comment, so it is never found again and every update
      appends it once more. */
  lemma CommentKeyAppendedAgain()
    ensures var a := Addresses(["#A"], map["#A" := "v"]);
      && UpdateLines([""], a) == ["", "#A=v"]
      && UpdateLines(UpdateLines([""], a), a) == ["", "#A=v", "#A=v"]
  {
    var a := Addresses(["#A"], map["#A" := "v"]);
    assert Skipped("");
    assert Trim("#A=v") == "#A=v";
    assert Skipped("#A=v");
    assert ["#A"][..0] == [];
    assert MissingKeys(a.keys, {}) == ["#A"];
    assert Setting(a, "#A") == "#A=v";
    assert Settings(a, ["#A"]) == ["#A=v"];
    assert [""][..0] == [];
    assert LineKey("", a.keys) == None;
    assert PresentKeys([""], a.keys) == {};
    assert RewriteLines([""], a) == [""];
    var once := ["", "#A=v"];
    assert once[..1] == [""];
    assert LineKey("#A=v", a.keys) == None;
    assert PresentKeys(once, a.keys) == {};
    assert RewriteLines(once, a) == once;
  }

  lemma {:induction false} NoneMissing(keys: seq<string>, present: set<string>)
    requires forall k :: k in keys ==> k in present
    ensures MissingKeys(keys, present) == []
    decreases |keys|
  {
    if |keys| > 0 {
      NoneMissing(keys[..|keys| - 1], present);
      assert keys[|keys| - 1] in keys;
    }
  }

  /** Running the update a second time with the same addresses changes
      nothing. */
  lemma UpdateContentIdempotent(content: string, a: Addresses)
    requires WellFormed(a)
    ensures UpdateContent(UpdateContent(content, a), a) == UpdateContent(content, a)
  {
    var lines := Split(content);
    var out := UpdateLines(lines, a);
    var present := PresentKeys(lines, a.keys);
    var missing := MissingKeys(a.keys, present);
    forall l | l in out
      ensures '\n' !in l
    {
      var i :| 0 <= i < |out| && out[i] == l;
      if i < |lines| {
        var key := LineKey(lines[i], a.keys);
        if key.Some? {
          var r := FirstMatchFrom(Trim(lines[i]), a.keys, 0);
          assert r.value in a.keys;
          NoBreakInSetting(a, key.value);
        } else {
          assert lines[i] in lines;
        }
      } else {
        MissingKeysIff(a.keys, present, missing[i - |lines|]);
        NoBreakInSetting(a, missing[i - |lines|]);
      }
    }
    SplitJoin(out);
    UpdateLinesIdempotent(lines, a);
  }

  lemma NoBreakInSetting(a: Addresses, k: string)
    requires WellFormed(a) && k in a.keys
    ensures '\n' !in Setting(a, k)
  {
    assert IsSpace('\n');
    var s := Setting(a, k);
    forall i | 0 <= i < |s|
      ensures s[i] != '\n'
    {
      if i < |k| {
        assert s[i] == k[i] && k[i] in k;
      } else if i > |k| {
        assert s[i] == a.ValueOf(k)[i - |k| - 1];
      }
    }
  }

  /** A file created from scratch holds one `KEY=value` line per key. */
  lemma CreatedLines(a: Addresses)
    requires WellFormed(a) && |a.keys| >= 1
    ensures Split(CreatedContent(a)) == Settings(a, a.keys)
  {
    var ls := Settings(a, a.keys);
    forall l | l in ls
      ensures '\n' !in l
    {
      var i :| 0 <= i < |ls| && ls[i] == l;
      NoBreakInSetting(a, a.keys[i]);
    }
    SplitJoin(ls);
  }
}
