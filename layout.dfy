/** The editor's layout file: lines of `key = value`, with blank lines,
    `#` comments and lines without `=` skipped, read into a map from key to
    number in which a later line overrides an earlier one, and the lookup
    with a default that the editor uses for every position it draws. */
module Layout {

  datatype Option<T> = None | Some(value: T)

  /** A parsed `key = value` line. */
  datatype Entry = Entry(key: string, value: real)

  /** JUCE's whitespace test for a char: space, or tab through carriage
      return. */
  predicate IsSpace(c: char) {
    c == ' ' || '\t' <= c <= '\r'
  }

  predicate AllSpace(s: string) {
    forall i | 0 <= i < |s| :: IsSpace(s[i])
  }

  /** Neither end of s is whitespace. */
  predicate Tight(s: string) {
    s == [] || (!IsSpace(s[0]) && !IsSpace(s[|s| - 1]))
  }

  /** String::trimStart: drop the leading whitespace. */
  function TrimStart(s: string): (r: string)
    ensures |r| <= |s| && r == s[|s| - |r|..]
    ensures r == [] || !IsSpace(r[0])
    ensures AllSpace(s[..|s| - |r|])
  {
    if s != [] && IsSpace(s[0]) then
      var r := TrimStart(s[1..]);
      assert s[..|s| - |r|] == [s[0]] + s[1..][..|s| - 1 - |r|];
      r
    else s
  }

  /** Drop the trailing whitespace. */
  function TrimEnd(s: string): (r: string)
    ensures |r| <= |s| && r == s[..|r|]
    ensures r == [] || !IsSpace(r[|r| - 1])
    ensures AllSpace(s[|r|..])
  {
    if s != [] && IsSpace(s[|s| - 1]) then
      var r := TrimEnd(s[..|s| - 1]);
      assert s[..|r|] == s[..|s| - 1][..|r|];
      assert s[|r|..] == s[..|s| - 1][|r|..] + [s[|s| - 1]];
      r
    else s
  }

  /** String::trim: drop the whitespace at both ends. */
  function Trim(s: string): (r: string)
    ensures Tight(r)
  {
    var t := TrimStart(s);
    var r := TrimEnd(t);
    assert r != [] ==> r[0] == t[0];
    r
  }

  /** String::indexOfChar: the first position of c in s, or -1. */
  function IndexOf(s: string, c: char): (i: int)
    ensures -1 <= i < |s|
    ensures i == -1 <==> c !in s
    ensures i >= 0 ==> s[i] == c && c !in s[..i]
  {
    if s == [] then -1
    else if s[0] == c then 0
    else
      var j := IndexOf(s[1..], c);
      assert s[1..][..j + 1] == s[1..j + 2] by {
        if j >= 0 {
          assert s[..j + 1] == [s[0]] + s[1..][..j];
        }
      }
      if j < 0 then -1 else j + 1
  }

  /** The line is skipped: blank, a comment, or without `=`. In
      particular a line of whitespace only and a line with no `=` anywhere
      are skipped. */
  predicate Skipped(line: string)
    ensures AllSpace(line) ==> Skipped(line)
    ensures '=' !in line ==> Skipped(line)
  {
    var t := TrimStart(line);
    assert t != [] ==> t[0] == line[|line| - |t|];
    assert '=' in t ==> '=' in line by {
      if '=' in t {
        var i :| 0 <= i < |t| && t[i] == '=';
        assert line[|line| - |t| + i] == '=';
      }
    }
    t == [] || t[0] == '#' || '=' !in t
  }

  /** One line of the file: the key is the trimmed text before the first
      `=`, the value the number read from the trimmed text after it. The
      conversion of text to a number is a parameter. */
  function ParseLine(line: string, toFloat: string -> real): (e: Option<Entry>)
    ensures e.None? <==> Skipped(line)
    ensures e.Some? ==> Tight(e.value.key) && '=' !in e.value.key
  {
    var t := TrimStart(line);
    if t == [] || t[0] == '#' then None
    else
      var eq := IndexOf(t, '=');
      if eq < 0 then None
      else
        var key := Trim(t[..eq]);
        assert '=' !in key by {
          assert forall i | 0 <= i < |key| :: key[i] in t[..eq];
        }
        Some(Entry(key, toFloat(Trim(t[eq + 1..]))))
  }

  /** The parse of every line, in order. */
  function Parsed(lines: seq<string>, toFloat: string -> real): (es: seq<Option<Entry>>)
    ensures |es| == |lines|
    ensures forall i | 0 <= i < |lines| :: es[i] == ParseLine(lines[i], toFloat)
    decreases |lines|
  {
    if lines == [] then []
    else Parsed(lines[..|lines| - 1], toFloat) + [ParseLine(lines[|lines| - 1], toFloat)]
  }

  /** The entry sets key k. */
  predicate Sets(e: Option<Entry>, k: string) {
    e.Some? && e.value.key == k
  }

  /** The map after storing the entries in order, each overwriting any
      earlier value for its key. It never holds more keys than there are
      entries. */
  function Store(es: seq<Option<Entry>>): (r: map<string, real>)
    ensures |r| <= |es|
    decreases |es|
  {
    if es == [] then map[]
    else
      var vals := Store(es[..|es| - 1]);
      match es[|es| - 1]
      case None => vals
      case Some(e) => vals[e.key := e.value]
  }

  /** The map built from the lines of a layout file: at most one key per
      line, and every key trimmed and free of `=`. */
  function LayoutOf(lines: seq<string>, toFloat: string -> real): (r: map<string, real>)
    ensures |r| <= |lines|
    ensures forall k | k in r :: Tight(k) && '=' !in k
  {
    var es := Parsed(lines, toFloat);
    assert forall k | k in Store(es) :: Tight(k) && '=' !in k by {
      forall k | k in Store(es)
        ensures Tight(k) && '=' !in k
      {
        StoreKeys(es, k);
        var i :| 0 <= i < |es| && Sets(es[i], k);
      }
    }
    Store(es)
  }

  /** Storing one more entry: a skipped line leaves the map, a parsed one
      sets its key. */
  lemma StoreNext(es: seq<Option<Entry>>, n: nat)
    requires n < |es|
    ensures es[n].None? ==> Store(es[..n + 1]) == Store(es[..n])
    ensures es[n].Some? ==> Store(es[..n + 1]) == Store(es[..n])[es[n].value.key := es[n].value.value]
  {
    assert es[..n + 1][..n] == es[..n];
  }

  /** readLayoutFile: no file gives the empty map; otherwise the lines are
      parsed one by one into the map. */
  method ReadLayoutFile(file: Option<seq<string>>, toFloat: string -> real)
      returns (vals: map<string, real>)
    ensures file.None? ==> vals == map[]
    ensures file.Some? ==> vals == LayoutOf(file.value, toFloat)
  {
    vals := map[];
    if file.None? {
      return;
    }
    var lines := file.value;
    ghost var es := Parsed(lines, toFloat);
    for n := 0 to |lines|
      invariant vals == Store(es[..n])
    {
      StoreNext(es, n);
      var line := lines[n];
      assert es[n] == ParseLine(line, toFloat);
      var trimmed := TrimStart(line);
      if trimmed == [] || trimmed[0] == '#' {
        continue;
      }
      var eq := IndexOf(trimmed, '=');
      if eq < 0 {
        continue;
      }
      var key, value := Trim(trimmed[..eq]), toFloat(Trim(trimmed[eq + 1..]));
      assert es[n] == Some(Entry(key, value));
      vals := vals[key := value];
    }
    assert es[..|lines|] == es;
  }

  /** A key is stored exactly when some entry sets it. */
  lemma {:induction false} StoreKeys(es: seq<Option<Entry>>, k: string)
    ensures k in Store(es) <==> exists i | 0 <= i < |es| :: Sets(es[i], k)
    decreases |es|
  {
    if es != [] {
      var init := es[..|es| - 1];
      StoreKeys(init, k);
      if exists i | 0 <= i < |es| :: Sets(es[i], k) {
        var i :| 0 <= i < |es| && Sets(es[i], k);
        if i < |init| {
          assert init[i] == es[i];
        }
      } else {
        forall i | 0 <= i < |init|
          ensures !Sets(init[i], k)
        {
          assert init[i] == es[i];
        }
      }
    }
  }

  /** The value stored for a key is the one of the last entry setting it. */
  lemma {:induction false} StoreLastWins(es: seq<Option<Entry>>, i: nat)
    requires i < |es| && es[i].Some?
    requires forall j | i < j < |es| :: !Sets(es[j], es[i].value.key)
    ensures es[i].value.key in Store(es) && Store(es)[es[i].value.key] == es[i].value.value
    decreases |es|
  {
    var init := es[..|es| - 1];
    if i < |init| {
      assert init[i] == es[i];
      forall j | i < j < |init|
        ensures !Sets(init[j], es[i].value.key)
      {
        assert init[j] == es[j];
      }
      StoreLastWins(init, i);
    }
  }

  /** The line sets key k. */
  predicate Defines(line: string, toFloat: string -> real, k: string) {
    Sets(ParseLine(line, toFloat), k)
  }

  /** The i-th parsed entry sets k exactly when line i does. */
  lemma ParsedAt(lines: seq<string>, toFloat: string -> real, k: string, i: nat)
    requires i < |lines|
    ensures Sets(Parsed(lines, toFloat)[i], k) == Defines(lines[i], toFloat, k)
  {
  }

  /** A key is in the layout exactly when some line sets it. */
  lemma LayoutKeys(lines: seq<string>, toFloat: string -> real, k: string)
    ensures k in LayoutOf(lines, toFloat) <==>
      exists i | 0 <= i < |lines| :: Defines(lines[i], toFloat, k)
  {
    var es := Parsed(lines, toFloat);
    StoreKeys(es, k);
    forall i | 0 <= i < |lines|
      ensures Sets(es[i], k) == Defines(lines[i], toFloat, k)
    {
      ParsedAt(lines, toFloat, k, i);
    }
  }

  /** The value stored for a key is the one on the last line setting it. */
  lemma LastWins(lines: seq<string>, toFloat: string -> real, i: nat)
    requires i < |lines| && ParseLine(lines[i], toFloat).Some?
    requires var k := ParseLine(lines[i], toFloat).value.key;
      forall j | i < j < |lines| :: !Defines(lines[j], toFloat, k)
    ensures var e := ParseLine(lines[i], toFloat).value;
      e.key in LayoutOf(lines, toFloat) && LayoutOf(lines, toFloat)[e.key] == e.value
  {
    var es := Parsed(lines, toFloat);
    forall j | i < j < |es|
      ensures !Sets(es[j], es[i].value.key)
    {
      assert !Defines(lines[j], toFloat, es[i].value.key);
    }
    StoreLastWins(es, i);
  }

  /** lv: the stored value when the key is present, the default otherwise. */
  function Lv(m: map<string, real>, key: string, def: real): (r: real)
    ensures key in m ==> r == m[key]
    ensures key !in m ==> r == def
  {
    if key in m then m[key] else def
  }

  /** Looking a key up in the layout gives the default when no line sets
      it, and the last setting line's value otherwise. */
  lemma LookupLayout(lines: seq<string>, toFloat: string -> real, k: string, def: real)
    ensures (forall i | 0 <= i < |lines| :: !Defines(lines[i], toFloat, k)) ==>
      Lv(LayoutOf(lines, toFloat), k, def) == def
    ensures forall i | 0 <= i < |lines| && Defines(lines[i], toFloat, k) ::
      (forall j | i < j < |lines| :: !Defines(lines[j], toFloat, k)) ==>
      Lv(LayoutOf(lines, toFloat), k, def) == ParseLine(lines[i], toFloat).value.value
  {
    LayoutKeys(lines, toFloat, k);
    forall i | 0 <= i < |lines| && Defines(lines[i], toFloat, k) &&
        (forall j | i < j < |lines| :: !Defines(lines[j], toFloat, k))
      ensures Lv(LayoutOf(lines, toFloat), k, def) == ParseLine(lines[i], toFloat).value.value
    {
      LastWins(lines, toFloat, i);
    }
  }

  /** Dropping whitespace from around a tight string recovers it. */
  lemma TrimPadded(pre: string, s: string, post: string)
    requires AllSpace(pre) && AllSpace(post) && Tight(s)
    ensures Trim(pre + s + post) == s
  {
    if s == [] {
      assert pre + s + post == (pre + post) + [];
      assert AllSpace(pre + post) by {
        assert forall i | 0 <= i < |pre + post| :: (pre + post)[i] == if i < |pre| then pre[i] else post[i - |pre|];
      }
      TrimStartPadded(pre + post, []);
    } else {
      assert pre + s + post == pre + (s + post);
      TrimStartPadded(pre, s + post);
      TrimEndPadded(s, post);
    }
  }

  lemma {:induction false} TrimStartPadded(pre: string, s: string)
    requires AllSpace(pre) && (s == [] || !IsSpace(s[0]))
    ensures TrimStart(pre + s) == s
    decreases |pre|
  {
    if pre != [] {
      assert (pre + s)[1..] == pre[1..] + s;
      TrimStartPadded(pre[1..], s);
    }
  }

  lemma {:induction false} TrimEndPadded(s: string, post: string)
    requires AllSpace(post) && (s == [] || !IsSpace(s[|s| - 1]))
    ensures TrimEnd(s + post) == s
    decreases |post|
  {
    if post != [] {
      var p := post[..|post| - 1];
      assert (s + post)[..|s + post| - 1] == s + p;
      TrimEndPadded(s, p);
    } else {
      assert s + post == s;
    }
  }

  /** The first `=` of u + "=" + text, when u has none, is the one after u. */
  lemma FirstEquals(u: string, text: string)
    requires '=' !in u
    ensures var t := u + "=" + text;
      IndexOf(t, '=') == |u| && t[..|u|] == u && t[|u| + 1..] == text
  {
    var t := u + "=" + text;
    assert t[|u|] == '=';
    assert t[..|u|] == u;
    assert t[|u| + 1..] == text;
  }

  /** Whitespace holds no `=`. */
  lemma NoEqualsInSpace(s: string)
    requires AllSpace(s)
    ensures '=' !in s
  {
  }

  /** A line whose trimmed start t is not a comment and holds `=` first,
      right after the text u, sets the trimmed u to the number after it. */
  lemma ParseAt(line: string, toFloat: string -> real, t: string, u: string, text: string)
    requires TrimStart(line) == t && t != [] && t[0] != '#'
    requires IndexOf(t, '=') == |u| && t[..|u|] == u && t[|u| + 1..] == text
    ensures ParseLine(line, toFloat) == Some(Entry(Trim(u), toFloat(Trim(text))))
  {
  }

  /** A key followed by whitespace holds no `=` and trims back to the key. */
  lemma KeyPiece(key: string, mid: string)
    requires AllSpace(mid) && Tight(key) && '=' !in key
    ensures '=' !in key + mid && Trim(key + mid) == key
  {
    var u := key + mid;
    NoEqualsInSpace(mid);
    assert '=' !in u by {
      assert forall i | 0 <= i < |u| :: u[i] == if i < |key| then key[i] else mid[i - |key|];
    }
    assert u == [] + key + mid;
    TrimPadded([], key, mid);
  }

  /** Behind leading whitespace, a line `u=text` with no `=` in u trims to
      itself and holds its first `=` right after u. */
  lemma LinePiece(pre: string, u: string, text: string)
    requires AllSpace(pre) && u != [] && !IsSpace(u[0]) && '=' !in u
    ensures var t := u + "=" + text;
      && TrimStart(pre + t) == t && t[0] == u[0]
      && IndexOf(t, '=') == |u| && t[..|u|] == u && t[|u| + 1..] == text
  {
    var t := u + "=" + text;
    TrimStartPadded(pre, t);
    FirstEquals(u, text);
  }

  lemma Regroup(a: string, b: string, c: string, d: string, e: string)
    ensures a + b + c + d + e == a + (b + c + d + e)
  {
    assert a + b + c == a + (b + c);
    assert a + (b + c) + d == a + (b + c + d);
    assert a + (b + c + d) + e == a + (b + c + d + e);
  }

  /** A line written as `key = text`, with any whitespace around the key
      and the text, reads back as that key with the number the text
      converts to. */
  lemma ParseFormatted(pre: string, key: string, mid: string, text: string, toFloat: string -> real)
    requires AllSpace(pre) && AllSpace(mid)
    requires key != [] && Tight(key) && key[0] != '#' && '=' !in key
    ensures ParseLine(pre + key + mid + "=" + text, toFloat) == Some(Entry(key, toFloat(Trim(text))))
  {
    var u := key + mid;
    KeyPiece(key, mid);
    assert u[0] == key[0];
    LinePiece(pre, u, text);
    var t := u + "=" + text;
    Regroup(pre, key, mid, "=", text);
    ParseAt(pre + t, toFloat, t, u, text);
  }
}
