/** The two parsers of an HTTPS credential, `username=...` and `token=...` on lines of their own. */
module Credentials {
  import opened Wrappers

  datatype Credential = Credential(username: string, token: string)

  // ---- The pieces of text ----

  function Find(s: string, c: char): nat
    ensures Find(s, c) <= |s|
    ensures forall k :: 0 <= k < Find(s, c) ==> s[k] != c
    ensures Find(s, c) < |s| ==> s[Find(s, c)] == c
  {
    if s == "" || s[0] == c then 0 else 1 + Find(s[1..], c)
  }

  function StripReturn(line: string): string {
    if line != "" && line[|line| - 1] == '\r' then line[..|line| - 1] else line
  }

  /** `str::lines`: ends at a newline, with a carriage return right before it removed; the last end is optional. */
  function Lines(s: string): seq<string>
    decreases |s|
  {
    if s == "" then []
    else
      var i := Find(s, '\n');
      if i == |s| then [s] else [StripReturn(s[..i])] + Lines(s[i + 1..])
  }

  /** `split_once('=')` */
  function SplitOnce(line: string): Option<(string, string)> {
    var i := Find(line, '=');
    if i == |line| then None else Some((line[..i], line[i + 1..]))
  }

  /** The Unicode White_Space property. */
  predicate White(c: char) {
    var n := c as int;
    9 <= n <= 13 || n == 0x20 || n == 0x85 || n == 0xA0 || n == 0x1680 || 0x2000 <= n <= 0x200A
    || n == 0x2028 || n == 0x2029 || n == 0x202F || n == 0x205F || n == 0x3000
  }

  /** `str::trim` */
  function Trim(s: string): string
    decreases |s|
  {
    if s == "" then s
    else if White(s[0]) then Trim(s[1..])
    else if White(s[|s| - 1]) then Trim(s[..|s| - 1])
    else s
  }

  // ---- What the parsers mean ----

  /** The value of the last line whose trimmed key is `key`. */
  function LastValue(lines: seq<string>, key: string): Option<string> {
    if lines == [] then None
    else
      var parts := SplitOnce(lines[|lines| - 1]);
      if parts.Some? && Trim(parts.value.0) == key then Some(parts.value.1) else LastValue(lines[..|lines| - 1], key)
  }

  function Both(username: Option<string>, token: Option<string>): Option<Credential> {
    if username.Some? && token.Some? && username.value != "" && token.value != ""
    then Some(Credential(username.value, token.value)) else None
  }

  function Meaning(value: string): Option<Credential> {
    Both(LastValue(Lines(value), "username"), LastValue(Lines(value), "token"))
  }

  predicate HasKey(line: string, key: string) {
    SplitOnce(line).Some? && SplitOnce(line).value.0 == key
  }

  /** Nothing but the two keys, bare, each at most once. */
  ghost predicate Clean(lines: seq<string>) {
    && (forall k :: 0 <= k < |lines| ==> HasKey(lines[k], "username") || HasKey(lines[k], "token"))
    && (forall j, k, key :: 0 <= j < k < |lines| && HasKey(lines[j], key) ==> !HasKey(lines[k], key))
  }

  lemma KeysAreTrim()
    ensures Trim("username") == "username" && Trim("token") == "token"
  {
  }

  lemma LastValueStep(lines: seq<string>, i: nat, key: string)
    requires i < |lines|
    ensures var parts := SplitOnce(lines[i]);
            LastValue(lines[..i + 1], key) ==
            if parts.Some? && Trim(parts.value.0) == key then Some(parts.value.1) else LastValue(lines[..i], key)
  {
    assert lines[..i + 1][..i] == lines[..i];
  }

  /** In clean lines a key has a value exactly if some line has it. */
  lemma {:induction false} CleanValues(lines: seq<string>, key: string)
    requires Clean(lines) && (key == "username" || key == "token")
    ensures LastValue(lines, key).Some? <==> exists k :: 0 <= k < |lines| && HasKey(lines[k], key)
  {
    KeysAreTrim();
    if lines != [] {
      var n := |lines| - 1;
      CleanValues(lines[..n], key);
      if k :| 0 <= k < n && HasKey(lines[k], key) {
        assert lines[..n][k] == lines[k];
      }
      assert HasKey(lines[n], "username") || HasKey(lines[n], "token");
    }
  }

  /** `parse_https_credential` of the engine: strict. It accepts exactly the clean payloads that mean a
      credential, and returns what they mean. */
  method ParseStrict(value: string) returns (r: Option<Credential>)
    ensures r == if Clean(Lines(value)) then Meaning(value) else None
    ensures r.Some? <==>
            && Clean(Lines(value))
            && Or(LastValue(Lines(value), "username"), "") != "" && Or(LastValue(Lines(value), "token"), "") != ""
    ensures r.Some? ==> r.value.username != "" && r.value.token != ""
  {
    KeysAreTrim();
    hide Trim, Lines, SplitOnce;
    var username: Option<string>, token: Option<string> := None, None;
    var lines := Lines(value);
    for i := 0 to |lines|
      invariant Clean(lines[..i])
      invariant username == LastValue(lines[..i], "username") && token == LastValue(lines[..i], "token")
    {
      LastValueStep(lines, i, "username");
      LastValueStep(lines, i, "token");
      CleanValues(lines[..i], "username");
      CleanValues(lines[..i], "token");
      var parts := SplitOnce(lines[i]);
      if parts.None? {
        return None;
      }
      var (key, v) := parts.value;
      if key == "username" && username.None? {
        username := Some(v);
      } else if key == "token" && token.None? {
        token := Some(v);
      } else {
        if key == "username" || key == "token" {
          var j :| 0 <= j < i && HasKey(lines[..i][j], key);
          assert HasKey(lines[j], key) && HasKey(lines[i], key);
        } else {
          assert !HasKey(lines[i], "username") && !HasKey(lines[i], "token");
        }
        return None;
      }
      assert lines[..i + 1] == lines[..i] + [lines[i]];
    }
    assert lines[..|lines|] == lines;
    r := Both(username, token);
  }

  /** `parse_https_credential` of the project sync: lenient. The last line of a key counts, blanks around keys
      and every other line are ignored. */
  method ParseLenient(value: string) returns (r: Option<Credential>)
    ensures r == Meaning(value)
    ensures r.Some? <==>
            Or(LastValue(Lines(value), "username"), "") != "" && Or(LastValue(Lines(value), "token"), "") != ""
    ensures r.Some? ==>
              && LastValue(Lines(value), "username") == Some(r.value.username) && r.value.username != ""
              && LastValue(Lines(value), "token") == Some(r.value.token) && r.value.token != ""
  {
    KeysAreTrim();
    var username: Option<string>, token: Option<string> := None, None;
    var lines := Lines(value);
    for i := 0 to |lines|
      invariant username == LastValue(lines[..i], "username") && token == LastValue(lines[..i], "token")
    {
      LastValueStep(lines, i, "username");
      LastValueStep(lines, i, "token");
      var parts := SplitOnce(lines[i]);
      if parts.Some? {
        var key := Trim(parts.value.0);
        if key == "username" {
          username := Some(parts.value.1);
        } else if key == "token" {
          token := Some(parts.value.1);
        }
      }
    }
    assert lines[..|lines|] == lines;
    r := Both(username, token);
  }

  /** The strict parser refines the lenient one: what it accepts the other accepts with the same result, and
      they differ exactly on the payloads that are not clean and still mean something. */
  method ParseBoth(value: string) returns (strict: Option<Credential>, lenient: Option<Credential>)
    ensures strict.Some? ==> lenient == strict
    ensures strict != lenient <==> lenient.Some? && !Clean(Lines(value))
  {
    strict := ParseStrict(value);
    lenient := ParseLenient(value);
  }

  // ---- What the parts of a payload mean ----

  predicate AllWhite(s: string) {
    forall k :: 0 <= k < |s| ==> White(s[k])
  }

  /** `trim` takes the blanks off both ends and nothing else. */
  lemma {:induction false} TrimStrips(before: string, core: string, after: string)
    requires AllWhite(before) && AllWhite(after)
    requires core == "" || (!White(core[0]) && !White(core[|core| - 1]))
    ensures Trim(before + core + after) == core
    decreases |before| + |after|
  {
    var s := before + core + after;
    if before != "" {
      assert s[1..] == before[1..] + core + after;
      TrimStrips(before[1..], core, after);
    } else if core == "" && after != "" {
      assert s == after && s[1..] == "" + core + after[1..];
      TrimStrips("", core, after[1..]);
    } else if after != "" {
      assert s[..|s| - 1] == "" + core + after[..|after| - 1];
      TrimStrips("", core, after[..|after| - 1]);
    } else {
      assert s == core;
    }
  }

  /** Every string has that form, so this is all that `trim` does. */
  lemma {:induction false} TrimForm(s: string) returns (before: string, core: string, after: string)
    ensures s == before + core + after && AllWhite(before) && AllWhite(after)
    ensures core == "" || (!White(core[0]) && !White(core[|core| - 1]))
    decreases |s|
  {
    before, core, after := "", s, "";
    if s != "" && White(s[0]) {
      before, core, after := TrimForm(s[1..]);
      before := [s[0]] + before;
    } else if s != "" && White(s[|s| - 1]) {
      before, core, after := TrimForm(s[..|s| - 1]);
      after := after + [s[|s| - 1]];
    }
  }

  /** A line ends at a newline, and a carriage return before it belongs to the end. */
  lemma CarriageReturnEnds(line: string, rest: string)
    requires '\n' !in line
    ensures Lines(line + "\r\n" + rest) == [line] + Lines(rest)
  {
    var s := line + "\r\n" + rest;
    FindIs(s, '\n', |line| + 1);
    assert s[..|line| + 1] == line + "\r" && s[|line| + 2..] == rest;
  }

  /** The last line needs no end, and then keeps a carriage return. */
  lemma LastLine(line: string)
    requires line != "" && '\n' !in line
    ensures Lines(line) == [line]
  {
    FindNone(line, '\n');
  }

  lemma {:induction false} FindNone(s: string, c: char)
    requires c !in s
    ensures Find(s, c) == |s|
  {
  }

  lemma NoEqualsSign(line: string)
    requires '=' !in line
    ensures SplitOnce(line) == None
  {
    FindNone(line, '=');
  }

  /** Line `i` gives the key this value. */
  predicate Gives(lines: seq<string>, i: nat, key: string, v: string) {
    && i < |lines| && SplitOnce(lines[i]).Some?
    && Trim(SplitOnce(lines[i]).value.0) == key && SplitOnce(lines[i]).value.1 == v
  }

  /** The value of a key is that of the last line that gives it one. */
  lemma {:induction false} LastLineCounts(lines: seq<string>, i: nat, key: string, v: string)
    requires Gives(lines, i, key, v)
    requires forall j, w :: i < j < |lines| ==> !Gives(lines, j, key, w)
    ensures LastValue(lines, key) == Some(v)
  {
    hide Trim, SplitOnce;
    var n := |lines| - 1;
    if i < n {
      assert !Gives(lines, n, key, if SplitOnce(lines[n]).Some? then SplitOnce(lines[n]).value.1 else "");
      forall j, w | i < j < n ensures !Gives(lines[..n], j, key, w) {
        assert !Gives(lines, j, key, w);
      }
      LastLineCounts(lines[..n], i, key, v);
    }
  }

  /** Without such a line it has none. */
  lemma {:induction false} NoLineNoValue(lines: seq<string>, key: string)
    requires forall j, w :: 0 <= j < |lines| ==> !Gives(lines, j, key, w)
    ensures LastValue(lines, key) == None
  {
    hide Trim, SplitOnce;
    if lines != [] {
      var n := |lines| - 1;
      assert !Gives(lines, n, key, if SplitOnce(lines[n]).Some? then SplitOnce(lines[n]).value.1 else "");
      forall j, w | 0 <= j < n ensures !Gives(lines[..n], j, key, w) {
        assert !Gives(lines, j, key, w);
      }
      NoLineNoValue(lines[..n], key);
    }
  }

  // ---- Round trip ----

  predicate OneLine(s: string) {
    '\n' !in s && (s == "" || s[|s| - 1] != '\r')
  }

  function Payload(c: Credential): string {
    "username=" + c.username + "\ntoken=" + c.token + "\n"
  }

  lemma FindIs(s: string, c: char, i: nat)
    requires i < |s| && s[i] == c && forall k :: 0 <= k < i ==> s[k] != c
    ensures Find(s, c) == i
  {
  }

  lemma LineOf(line: string, rest: string)
    requires OneLine(line)
    ensures Lines(line + "\n" + rest) == [line] + Lines(rest)
  {
    var s := line + "\n" + rest;
    FindIs(s, '\n', |line|);
    assert s[..|line|] == line && s[|line| + 1..] == rest;
  }

  lemma KeyValue(key: string, v: string)
    requires '=' !in key
    ensures SplitOnce(key + "=" + v) == Some((key, v))
  {
    var s := key + "=" + v;
    FindIs(s, '=', |key|);
    assert s[..|key|] == key && s[|key| + 1..] == v;
  }

  lemma TwoLines(a: string, b: string)
    requires HasKey(a, "username") && HasKey(b, "token")
    ensures LastValue([a, b], "username") == Some(SplitOnce(a).value.1)
    ensures LastValue([a, b], "token") == Some(SplitOnce(b).value.1)
    ensures Clean([a, b])
  {
    KeysAreTrim();
    hide Trim, SplitOnce;
    assert [a, b][..1] == [a] && [a][..0] == [];
    assert LastValue([a], "username") == Some(SplitOnce(a).value.1);
  }

  /** A credential whose parts are not empty and fit on a line is read back from its payload by both parsers. */
  lemma PayloadReadsBack(c: Credential)
    requires c.username != "" && c.token != "" && OneLine(c.username) && OneLine(c.token)
    ensures Clean(Lines(Payload(c))) && Meaning(Payload(c)) == Some(c)
  {
    hide Lines, LastValue, SplitOnce, Clean;
    var first, second := "username" + "=" + c.username, "token" + "=" + c.token;
    LineOf(first, second + "\n" + "");
    LineOf(second, "");
    KeyValue("username", c.username);
    KeyValue("token", c.token);
    TwoLines(first, second);
    assert Payload(c) == first + "\n" + (second + "\n" + "");
    assert Lines("") == [] by { NoLines(); }
    assert Lines(Payload(c)) == [first, second];
  }

  lemma NoLines()
    ensures Lines("") == []
  {
  }
}
