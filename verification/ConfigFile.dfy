// Saving the API key: one line of the config file is replaced and every other byte stays.
module ConfigFile {
  import opened Basics

  // ---- splitting into lines and joining them ----

  function Split(s: string): (r: seq<string>)
    ensures |r| >= 1 && forall line <- r :: '\n' !in line
  {
    if s == [] then [""]
    else
      var rest := Split(s[1..]);
      if s[0] == '\n' then [""] + rest else [[s[0]] + rest[0]] + rest[1..]
  }

  function Join(lines: seq<string>): string
    requires lines != []
  {
    if |lines| == 1 then lines[0] else lines[0] + "\n" + Join(lines[1..])
  }

  lemma {:induction false} JoinUndoesSplit(s: string)
    ensures Join(Split(s)) == s
    decreases |s|
  {
    if s != [] {
      var rest := Split(s[1..]);
      JoinUndoesSplit(s[1..]);
      if s[0] == '\n' {
        assert ([""] + rest)[1..] == rest;
      } else {
        JoinGrows(s[0], rest);
      }
      assert s == [s[0]] + s[1..];
    }
  }

  lemma JoinGrows(c: char, lines: seq<string>)
    requires lines != []
    ensures Join([[c] + lines[0]] + lines[1..]) == [c] + Join(lines)
  {
    var grown := [[c] + lines[0]] + lines[1..];
    assert grown[1..] == lines[1..];
    if |lines| > 1 {
      assert ([c] + lines[0]) + "\n" + Join(lines[1..]) == [c] + (lines[0] + "\n" + Join(lines[1..]));
    }
  }

  lemma {:induction false} SplitLine(line: string)
    requires '\n' !in line
    ensures Split(line) == [line]
    decreases |line|
  {
    if line != [] {
      SplitLine(line[1..]);
      assert line == [line[0]] + line[1..];
    }
  }

  lemma {:induction false} SplitAfterLine(line: string, rest: string)
    requires '\n' !in line
    ensures Split(line + "\n" + rest) == [line] + Split(rest)
    decreases |line|
  {
    if line == [] {
      assert ("" + "\n" + rest)[1..] == rest;
    } else {
      var s := line + "\n" + rest;
      assert s[0] == line[0] && s[1..] == line[1..] + "\n" + rest;
      SplitAfterLine(line[1..], rest);
      assert line == [line[0]] + line[1..];
    }
  }

  lemma {:induction false} SplitUndoesJoin(lines: seq<string>)
    requires lines != [] && forall line <- lines :: '\n' !in line
    ensures Split(Join(lines)) == lines
    decreases |lines|
  {
    if |lines| == 1 {
      SplitLine(lines[0]);
    } else {
      SplitUndoesJoin(lines[1..]);
      SplitAfterLine(lines[0], Join(lines[1..]));
    }
  }

  // ---- the key's line ----

  predicate IsSpace(c: char) {
    c in "\t\n\r \U{0B}\U{0C}\U{85}\U{A0}\U{1680}\U{2028}\U{2029}\U{202F}\U{205F}\U{3000}"
        || '\U{2000}' <= c <= '\U{200A}'
  }

  function TrimLeft(s: string): string { if s != [] && IsSpace(s[0]) then TrimLeft(s[1..]) else s }

  function TrimRight(s: string): string { if s != [] && IsSpace(s[|s| - 1]) then TrimRight(s[..|s| - 1]) else s }

  const KEY: string := "api_key"

  predicate IsKeyLine(line: string) { KEY <= TrimRight(TrimLeft(line)) }

  // White space by code point: the characters with the Unicode property of that name.
  lemma SpacesAreUnicodeWhiteSpace(c: char)
    ensures var n := c as int;
            IsSpace(c) <==>
              || 9 <= n <= 13 || n == 32 || n == 0x85 || n == 0xA0 || n == 0x1680 || 0x2000 <= n <= 0x200A
              || n == 0x2028 || n == 0x2029 || n == 0x202F || n == 0x205F || n == 0x3000
  {}

  // A line holds the key exactly when api_key comes right after its leading white space, whatever follows.
  lemma {:induction false} KeyLineStartsWithTheName(line: string) returns (i: nat)
    ensures i <= |line| && (forall j :: 0 <= j < i ==> IsSpace(line[j])) && (i < |line| ==> !IsSpace(line[i]))
    ensures IsKeyLine(line) <==> "api_key" <= line[i..]
    decreases |line|
  {
    if line != [] && IsSpace(line[0]) {
      var rest := KeyLineStartsWithTheName(line[1..]);
      i := rest + 1;
      assert line[1..][rest..] == line[i..];
      forall j | 0 <= j < i ensures IsSpace(line[j]) { if j > 0 { assert line[j] == line[1..][j - 1]; } }
    } else {
      i := 0;
      assert line[0..] == line;
      TrimRightKeepsName(line);
    }
  }

  lemma {:induction false} TrimRightKeepsName(s: string)
    ensures "api_key" <= TrimRight(s) <==> "api_key" <= s
    decreases |s|
  {
    if s != [] && IsSpace(s[|s| - 1]) {
      var front := s[..|s| - 1];
      TrimRightKeepsName(front);
      assert s == front + [s[|s| - 1]];
      if |s| == 7 { NameIsNoSpace(s); }
    }
  }

  lemma NameIsNoSpace(s: string)
    requires |s| == 7 && IsSpace(s[6])
    ensures !("api_key" <= s)
  {
    if "api_key" <= s { assert false; }
  }

  function FirstWhere<T>(xs: seq<T>, p: T -> bool): (k: nat)
    ensures k <= |xs| && (k < |xs| ==> p(xs[k])) && forall i :: 0 <= i < k ==> !p(xs[i])
  {
    if xs == [] || p(xs[0]) then 0 else 1 + FirstWhere(xs[1..], p)
  }

  /** The first line that starts with the key's name, or the number of lines. */
  function KeyLine(lines: seq<string>): (k: nat)
    ensures k <= |lines| && (k < |lines| ==> IsKeyLine(lines[k])) && forall i :: 0 <= i < k ==> !IsKeyLine(lines[i])
  {
    FirstWhere(lines, IsKeyLine)
  }

  /** What SaveAPIKey writes. */
  function Saved(content: string, quoted: string): Option<string> {
    var lines := Split(content); var k := KeyLine(lines);
    if k < |lines| then Some(Join(lines[k := "api_key = " + quoted])) else None
  }

  // Reads `content`, and gives what is written, or nothing if no line holds a key. `quoted` is the key as a quoted
  // string.
  method SaveAPIKey(content: string, quoted: string) returns (written: Option<string>)
    ensures written == Saved(content, quoted)
  {
    var split := Split(content);
    var lines := new string[|split|](i requires 0 <= i < |split| => split[i]);
    assert lines[..] == split;
    var replaced := false;
    for i := 0 to lines.Length
      invariant !replaced && lines[..] == split && i <= KeyLine(split)
    {
      if KEY <= TrimRight(TrimLeft(lines[i])) {
        lines[i] := "api_key = " + quoted;
        replaced := true;
        break;
      }
    }
    if !replaced {
      return None;
    }
    return Some(Join(lines[..]));
  }

  lemma NewLineIsAKeyLine(quoted: string)
    ensures IsKeyLine("api_key = " + quoted)
  {
    var line := "api_key = " + quoted;
    assert !IsSpace(line[0]);
    TrimRightKeepsStart(line, |KEY|);
    assert line[..|KEY|] == KEY;
  }

  lemma {:induction false} TrimRightKeepsStart(s: string, n: nat)
    requires 0 < n <= |s| && !IsSpace(s[n - 1])
    ensures |TrimRight(s)| >= n && TrimRight(s)[..n] == s[..n]
    decreases |s|
  {
    if IsSpace(s[|s| - 1]) { TrimRightKeepsStart(s[..|s| - 1], n); }
  }

  // The key is saved exactly when some line starts with its name; then that line alone changes, line for line.
  lemma OnlyTheKeyLineChanges(content: string, quoted: string)
    requires '\n' !in quoted
    ensures Saved(content, quoted).Some? <==> exists line <- Split(content) :: IsKeyLine(line)
    ensures Saved(content, quoted).Some? ==>
              var before, after, k := Split(content), Split(Saved(content, quoted).value), KeyLine(Split(content));
              && |after| == |before| && after[k] == "api_key = " + quoted
              && forall i :: 0 <= i < |before| && i != k ==> after[i] == before[i]
  {
    var lines := Split(content);
    var k := KeyLine(lines);
    if k < |lines| {
      assert IsKeyLine(lines[k]) && lines[k] in lines;
      SplitUndoesJoin(lines[k := "api_key = " + quoted]);
    }
  }

  // The last key saved is the one the file holds, and nothing remains of the one before.
  lemma LastSaveWins(content: string, first: string, second: string)
    requires '\n' !in first && '\n' !in second && Saved(content, first).Some?
    ensures Saved(Saved(content, first).value, second) == Saved(content, second)
  {
    var lines, k := Split(content), KeyLine(Split(content));
    var once := lines[k := "api_key = " + first];
    SplitUndoesJoin(once);
    NewLineIsAKeyLine(first);
    SameKeyLine(lines, once, k);
    assert once[k := "api_key = " + second] == lines[k := "api_key = " + second];
  }

  lemma {:induction false} SameKeyLine(lines: seq<string>, once: seq<string>, k: nat)
    requires k == KeyLine(lines) < |lines| && |once| == |lines| && IsKeyLine(once[k])
             && forall i :: 0 <= i < k ==> once[i] == lines[i]
    ensures KeyLine(once) == k
    decreases k
  {
    if k > 0 { SameKeyLine(lines[1..], once[1..], k - 1); }
  }
}
