/** Reading and writing PostgreSQL arrays of text, sharing channels and UUIDs. */
module ArrayCodecs {
  import opened Prelude
  import opened Text
  import opened Like

  /** What the driver hands to Scan. */
  datatype DbValue = Null | Bytes(text: string) | Characters(text: string) | Unsupported

  datatype Error = UnsupportedType | BadUuid(index: nat)

  // ---------------------------------------------------------------- trimming braces

  predicate IsBrace(c: char) { c == '{' || c == '}' }

  /** The text neither starts nor ends with a brace. */
  predicate CleanEdges(s: string) {
    s != "" ==> !IsBrace(s[0]) && !IsBrace(s[|s| - 1])
  }

  function TrimLeft(s: string): (r: string)
    ensures r != "" ==> !IsBrace(r[0])
    ensures s != "" && !IsBrace(s[0]) ==> r == s
  {
    if s != "" && IsBrace(s[0]) then TrimLeft(s[1..]) else s
  }

  function TrimRight(s: string): (r: string)
    ensures r <= s
    ensures r != "" ==> !IsBrace(r[|r| - 1])
    ensures s != "" && !IsBrace(s[|s| - 1]) ==> r == s
  {
    if s != "" && IsBrace(s[|s| - 1]) then TrimRight(s[..|s| - 1]) else s
  }

  /** `strings.Trim(s, "{}")`. */
  function Trim(s: string): (r: string)
    ensures CleanEdges(r)
  {
    TrimRight(TrimLeft(s))
  }

  /** Trimming takes off exactly the braces that Value put on when the text has clean edges. */
  lemma TrimWrapped(t: string)
    ensures Trim("{" + t + "}") == t <==> CleanEdges(t)
  {
    if CleanEdges(t) {
      var s := "{" + t + "}";
      assert s[1..] == t + "}";
      if t == "" {
        assert TrimLeft("}") == TrimLeft("") by { assert "}"[1..] == ""; }
      } else {
        assert TrimLeft(s[1..]) == t + "}";
        assert (t + "}")[..|t|] == t;
      }
    }
  }

  ghost predicate AllBraces(s: string) {
    forall i :: 0 <= i < |s| ==> IsBrace(s[i])
  }

  lemma {:induction false} LeftBraces(l: string, t: string)
    requires AllBraces(l) && (t == "" || !IsBrace(t[0]))
    ensures TrimLeft(l + t) == t
  {
    if l == "" {
      assert l + t == t;
    } else {
      assert (l + t)[1..] == l[1..] + t;
      LeftBraces(l[1..], t);
    }
  }

  lemma {:induction false} RightBraces(t: string, r: string)
    requires AllBraces(r) && (t == "" || !IsBrace(t[|t| - 1]))
    ensures TrimRight(t + r) == t
  {
    if r == "" {
      assert t + r == t;
    } else {
      assert (t + r)[..|t + r| - 1] == t + r[..|r| - 1];
      RightBraces(t, r[..|r| - 1]);
    }
  }

  /** Any number of braces of both kinds goes from both ends, and nothing else. */
  lemma BracesIgnored(l: string, t: string, r: string)
    requires AllBraces(l) && AllBraces(r) && CleanEdges(t)
    ensures Trim(l + t + r) == t
  {
    if t == "" {
      LeftBraces(l + r, "");
      assert l + t + r == l + r + "";
    } else {
      assert l + t + r == l + (t + r);
      LeftBraces(l, t + r);
      RightBraces(t, r);
    }
  }

  // ---------------------------------------------------------------- the codecs as functions

  /** A nil slice is None. */
  function Print(a: Option<seq<string>>): DbValue {
    match a
    case None => Null
    case Some(parts) => if parts == [] then Characters("{}") else Characters("{" + Join(parts, ',') + "}")
  }

  function Parts(s: string): seq<string> {
    if s == "" || s == "{}" || Trim(s) == "" then [] else Split(Trim(s), ',')
  }

  function Parse(v: DbValue): Result<Option<seq<string>>, Error> {
    match v
    case Null => Ok(None)
    case Unsupported => Err(UnsupportedType)
    case _ => Ok(Some(Parts(v.text)))
  }

  /** What is read from any text: the parts between commas of what its outer braces enclose. */
  lemma PartsBetweenBraces(l: string, t: string, r: string)
    requires AllBraces(l) && AllBraces(r) && CleanEdges(t)
    ensures Parts(l + t + r) == if t == "" then [] else Split(t, ',')
  {
    BracesIgnored(l, t, r);
    BracesIgnored("{}", "", "");
    assert "{}" + "" + "" == "{}";
  }

  /** The arrays that survive being written and read. */
  predicate Survives(a: Option<seq<string>>) {
    a.None? || a.value == [] ||
    (a.value != [""] && CleanEdges(Join(a.value, ',')) && forall i :: 0 <= i < |a.value| ==> ',' !in a.value[i])
  }

  lemma {:induction false} JoinIsEmpty(parts: seq<string>)
    requires parts != []
    ensures Join(parts, ',') == "" <==> parts == [""]
  {
    if |parts| == 1 {
      assert parts == [parts[0]];
    }
  }

  /** Main result: reading what was written gives the array back if and only if it is nil, or
      empty, or no element has a comma, it is not the single empty text, and the joined text
      neither starts nor ends with a brace. */
  lemma RoundTripIff(a: Option<seq<string>>)
    ensures Parse(Print(a)) == Ok(a) <==> Survives(a)
  {
    if a.Some? && a.value != [] {
      var t := Join(a.value, ',');
      var s := "{" + t + "}";
      JoinIsEmpty(a.value);
      TrimWrapped(t);
      if Survives(a) {
        SplitJoin(a.value, ',');
        assert s != "{}" by { assert |s| == |t| + 2; }
      } else if CleanEdges(t) {
        if a.value == [""] {
          assert s == "{}";
        }
      } else {
        assert Trim(s) != "" ==> Join(Split(Trim(s), ','), ',') == Trim(s) != t;
      }
    }
  }

  // ---------------------------------------------------------------- StringArray

  class StringArray {
    var items: Option<seq<string>>

    method Value() returns (v: DbValue)
      ensures v == Print(items)
    {
      if items.None? { return Null; }
      if |items.value| == 0 { return Characters("{}"); }
      return Characters("{" + Join(items.value, ',') + "}");
    }

    /** An unsupported value leaves the receiver as it was. */
    method Scan(value: DbValue) returns (error: Option<Error>)
      modifies this
      ensures Parse(value).Ok? ==> error == None && items == Parse(value).value
      ensures Parse(value).Err? ==> error == Some(Parse(value).error) && items == old(items)
    {
      var str;
      match value {
        case Null =>
          items := None;
          return None;
        case Bytes(v) => str := v;
        case Characters(v) => str := v;
        case Unsupported => return Some(UnsupportedType);
      }
      if str == "" || str == "{}" {
        items := Some([]);
        return None;
      }
      str := Trim(str);
      if str == "" {
        items := Some([]);
        return None;
      }
      items := Some(Split(str, ','));
      return None;
    }
  }

  // ---------------------------------------------------------------- SharingChannelArray

  datatype SharingChannel = SharingChannel(name: string)

  function Names(channels: seq<SharingChannel>): (r: seq<string>)
    ensures |r| == |channels| && forall i :: 0 <= i < |r| ==> r[i] == channels[i].name
  {
    if channels == [] then [] else Names(channels[..|channels| - 1]) + [channels[|channels| - 1].name]
  }

  function NamesOf(a: Option<seq<SharingChannel>>): Option<seq<string>> {
    if a.None? then None else Some(Names(a.value))
  }

  /** The loop that makes a channel of every part. */
  method Convert(parts: seq<string>) returns (channels: seq<SharingChannel>)
    ensures Names(channels) == parts
  {
    channels := [];
    for i := 0 to |parts|
      invariant Names(channels) == parts[..i]
    {
      var next := channels + [SharingChannel(parts[i])];
      assert next[..|channels|] == channels;
      channels := next;
    }
    assert parts[..|parts|] == parts;
  }

  class SharingChannelArray {
    var items: Option<seq<SharingChannel>>

    method Value() returns (v: DbValue)
      ensures v == Print(NamesOf(items))
    {
      if items.None? { return Null; }
      var a := items.value;
      if |a| == 0 { return Characters("{}"); }
      var strVals := [];
      for i := 0 to |a|
        invariant strVals == Names(a[..i])
      {
        assert a[..i + 1][..i] == a[..i];
        strVals := strVals + [a[i].name];
      }
      assert a[..|a|] == a;
      return Characters("{" + Join(strVals, ',') + "}");
    }

    method Scan(value: DbValue) returns (error: Option<Error>)
      modifies this
      ensures Parse(value).Ok? ==> error == None && NamesOf(items) == Parse(value).value
      ensures Parse(value).Err? ==> error == Some(Parse(value).error) && items == old(items)
    {
      hide Split, Trim, Names;
      if value.Null? {
        items := None;
        return None;
      }
      if value.Unsupported? { return Some(UnsupportedType); }
      if value.text == "" || value.text == "{}" {
        items := Some([]);
        return None;
      }
      var str := Trim(value.text);
      if str == "" {
        items := Some([]);
        return None;
      }
      var channels := Convert(Split(str, ','));
      items := Some(channels);
      return None;
    }
  }

  /** Channels are their names, so what holds of reading and writing names holds of them. */
  lemma NamesDetermine(a: Option<seq<SharingChannel>>, b: Option<seq<SharingChannel>>)
    requires NamesOf(a) == NamesOf(b)
    ensures a == b
  {
    if a.Some? {
      assert |Names(a.value)| == |Names(b.value)|;
      forall i | 0 <= i < |a.value| ensures a.value[i] == b.value[i] {
        assert Names(a.value)[i] == Names(b.value)[i];
      }
      assert a.value == b.value;
    }
  }

  // ---------------------------------------------------------------- UUIDs

  type Uuid = s: seq<int> | |s| == 32 && forall i :: 0 <= i < |s| ==> 0 <= s[i] < 16
    witness seq(32, _ => 0)

  const NIL_UUID: Uuid := [0, 0, 0, 0, 0, 0, 0, 0, 0, 0, 0, 0, 0, 0, 0, 0,
                           0, 0, 0, 0, 0, 0, 0, 0, 0, 0, 0, 0, 0, 0, 0, 0]

  predicate IsHex(c: char) { '0' <= c <= '9' || 'a' <= c <= 'f' || 'A' <= c <= 'F' }

  function HexValue(c: char): (d: int)
    requires IsHex(c)
    ensures 0 <= d < 16
  {
    if c <= '9' then c as int - '0' as int
    else if c <= 'F' then c as int - 'A' as int + 10
    else c as int - 'a' as int + 10
  }

  function HexChar(d: int): (c: char)
    requires 0 <= d < 16
    ensures IsHex(c) && HexValue(c) == d
  {
    if d < 10 then '0' + d as char else 'a' + (d - 10) as char
  }

  predicate IsDash(i: int) { i == 8 || i == 13 || i == 18 || i == 23 }

  /** The character of nibble j in the canonical text. */
  function Place(j: int): int {
    if j < 8 then j else if j < 12 then j + 1 else if j < 16 then j + 2 else if j < 20 then j + 3 else j + 4
  }

  /** The nibble at character i. */
  function Nibble(i: int): int {
    if i < 8 then i else if i < 13 then i - 1 else if i < 18 then i - 2 else if i < 23 then i - 3 else i - 4
  }

  function FormatUuid(u: Uuid): (s: string)
    ensures |s| == 36
    ensures forall i :: 0 <= i < 36 ==> s[i] == '-' || IsHex(s[i])
  {
    seq(36, i requires 0 <= i < 36 => if IsDash(i) then '-' else HexChar(u[Nibble(i)]))
  }

  /** The canonical text: dashes in their places and hexadecimal digits, capital or not. */
  function ParseDashed(s: string): Option<Uuid>
    requires |s| == 36
  {
    if forall i :: 0 <= i < 36 ==> if IsDash(i) then s[i] == '-' else IsHex(s[i]) then
      Some(seq(32, j requires 0 <= j < 32 => HexValue(s[Place(j)])))
    else None
  }

  /** The digits alone. */
  function ParseDigits(s: string): Option<Uuid>
    requires |s| == 32
  {
    if forall i :: 0 <= i < 32 ==> IsHex(s[i]) then Some(seq(32, j requires 0 <= j < 32 => HexValue(s[j]))) else None
  }

  /** `uuid.Parse`: the canonical text, alone, after "urn:uuid:" in any case, or between two
      characters that are not looked at; or the digits alone. */
  function ParseUuid(s: string): Option<Uuid> {
    if |s| == 36 then ParseDashed(s)
    else if |s| == 45 then if Lower(s[..9]) == "urn:uuid:" then ParseDashed(s[9..]) else None
    else if |s| == 38 then ParseDashed(s[1..37])
    else if |s| == 32 then ParseDigits(s)
    else None
  }

  lemma UuidRoundTrip(u: Uuid)
    ensures ParseUuid(FormatUuid(u)) == Some(u)
  {
    var s := FormatUuid(u);
    forall j | 0 <= j < 32 ensures !IsDash(Place(j)) && Nibble(Place(j)) == j {}
    forall j | 0 <= j < 32 ensures HexValue(s[Place(j)]) == u[j] {
      assert s[Place(j)] == HexChar(u[Nibble(Place(j))]);
    }
    assert forall i :: 0 <= i < 36 ==> if IsDash(i) then s[i] == '-' else IsHex(s[i]);
    assert ParseUuid(s).value == u;
  }

  const HEX: string := "0123456789abcdef"

  ghost function Hex(u: seq<int>): (s: string)
    requires forall i :: 0 <= i < |u| ==> 0 <= u[i] < 16
    ensures |s| == |u| && forall i :: 0 <= i < |u| ==> s[i] == HEX[u[i]]
  {
    seq(|u|, i requires 0 <= i < |u| => HEX[u[i]])
  }

  /** A UUID is written in lower case, in groups of 8, 4, 4, 4 and 12 digits. */
  lemma CanonicalText(u: Uuid)
    ensures FormatUuid(u)
         == Hex(u[..8]) + "-" + Hex(u[8..12]) + "-" + Hex(u[12..16]) + "-" + Hex(u[16..20]) + "-" + Hex(u[20..])
  {
    assert forall d :: 0 <= d < 16 ==> HexChar(d) == HEX[d];
  }

  lemma SameDigit(c: char, d: int)
    requires 0 <= d < 16
    ensures IsHex(c) && HexValue(c) == d <==> LowerChar(c) == HexChar(d)
    ensures LowerChar(c) == '-' <==> c == '-'
  {}

  /** Nibbles and the characters that are not dashes correspond. */
  lemma Places()
    ensures forall i :: 0 <= i < 36 ==> 0 <= Nibble(i) < 32 && (!IsDash(i) ==> Place(Nibble(i)) == i)
    ensures forall j :: 0 <= j < 32 ==> 0 <= Place(j) < 36 && !IsDash(Place(j)) && Nibble(Place(j)) == j
  {}

  /** Character i of a text is as in the canonical text, capital or not. */
  predicate Fits(c: char, i: int, u: Uuid)
    requires 0 <= Nibble(i) < 32
  {
    if IsDash(i) then c == '-' else IsHex(c) && HexValue(c) == u[Nibble(i)]
  }

  lemma FitsMeans(s: string, u: Uuid, i: int)
    requires |s| == 36 && 0 <= i < 36
    ensures 0 <= Nibble(i) < 32 && (Fits(s[i], i, u) <==> Lower(s)[i] == FormatUuid(u)[i])
  {
    hide IsHex, HexValue, HexChar, LowerChar, Lower;
    SameDigit(s[i], u[Nibble(i)]);
  }

  lemma ParsedDashed(s: string, u: Uuid)
    requires |s| == 36
    ensures ParseDashed(s) == Some(u) <==> Lower(s) == FormatUuid(u)
  {
    hide IsHex, HexValue, Lower, FormatUuid, Nibble, Place;
    Places();
    forall i | 0 <= i < 36 ensures Fits(s[i], i, u) <==> Lower(s)[i] == FormatUuid(u)[i] {
      FitsMeans(s, u, i);
    }
    if ParseDashed(s) == Some(u) {
      forall i | 0 <= i < 36 ensures Fits(s[i], i, u) {
        assert !IsDash(i) ==> HexValue(s[Place(Nibble(i))]) == u[Nibble(i)];
      }
    }
    if forall i :: 0 <= i < 36 ==> Fits(s[i], i, u) {
      forall j | 0 <= j < 32 ensures HexValue(s[Place(j)]) == u[j] {
        assert Fits(s[Place(j)], Place(j), u);
      }
      assert ParseDashed(s).value == u;
    }
  }

  lemma ParsedDigits(s: string, u: Uuid)
    requires |s| == 32
    ensures ParseDigits(s) == Some(u) <==> Lower(s) == Hex(u)
  {
    hide IsHex, HexValue, LowerChar, Lower, Hex;
    forall i | 0 <= i < 32 ensures IsHex(s[i]) && HexValue(s[i]) == u[i] <==> Lower(s)[i] == Hex(u)[i] {
      SameDigit(s[i], u[i]);
      assert HexChar(u[i]) == HEX[u[i]];
    }
    if forall i :: 0 <= i < 32 ==> Lower(s)[i] == Hex(u)[i] {
      assert forall i :: 0 <= i < 32 ==> IsHex(s[i]) && HexValue(s[i]) == u[i];
      assert ParseDigits(s).value == u;
    }
  }

  lemma AfterPrefix(s: string, prefix: string, t: string)
    requires |s| == |prefix| + |t|
    ensures Lower(s) == prefix + t <==> Lower(s[..|prefix|]) == prefix && Lower(s[|prefix|..]) == t
  {
    hide LowerChar, Lower;
    assert Lower(s) == Lower(s[..|prefix|]) + Lower(s[|prefix|..]);
  }

  /** Main result: a text is parsed to a UUID if and only if, in any case, it is the UUID's
      canonical text, alone or after "urn:uuid:", or that text between any two characters, or
      its 32 digits. */
  lemma ParsedIff(s: string, u: Uuid)
    ensures ParseUuid(s) == Some(u) <==>
      || Lower(s) == FormatUuid(u)
      || Lower(s) == "urn:uuid:" + FormatUuid(u)
      || (|s| == 38 && Lower(s[1..37]) == FormatUuid(u))
      || Lower(s) == Hex(u)
  {
    hide ParseDashed, ParseDigits, Lower, FormatUuid, Hex;
    if |s| == 36 {
      ParsedDashed(s, u);
    } else if |s| == 45 {
      ParsedDashed(s[9..], u);
      AfterPrefix(s, "urn:uuid:", FormatUuid(u));
    } else if |s| == 38 {
      ParsedDashed(s[1..37], u);
    } else if |s| == 32 {
      ParsedDigits(s, u);
    }
  }

  function Formats(a: seq<Uuid>): (r: seq<string>)
    ensures |r| == |a| && forall i :: 0 <= i < |r| ==> r[i] == FormatUuid(a[i])
  {
    if a == [] then [] else Formats(a[..|a| - 1]) + [FormatUuid(a[|a| - 1])]
  }

  function FormatsOf(a: Option<seq<Uuid>>): Option<seq<string>> {
    if a.None? then None else Some(Formats(a.value))
  }

  /** The first part that is not a UUID, or the number of parts. */
  function FirstBad(parts: seq<string>, i: nat): (n: nat)
    requires i <= |parts|
    ensures i <= n <= |parts|
    ensures forall k :: i <= k < n ==> ParseUuid(parts[k]).Some?
    ensures n < |parts| ==> ParseUuid(parts[n]).None?
    decreases |parts| - i
  {
    if i == |parts| || ParseUuid(parts[i]).None? then i else FirstBad(parts, i + 1)
  }

  /** The first n parts parsed, nil UUIDs from there on. */
  predicate Filled(a: seq<Uuid>, parts: seq<string>, n: nat) {
    && |a| == |parts|
    && (forall k :: 0 <= k < |parts| && k < n ==> ParseUuid(parts[k]) == Some(a[k]))
    && (forall k :: 0 <= k < |parts| && n <= k ==> a[k] == NIL_UUID)
  }

  class UuidArray {
    var items: Option<seq<Uuid>>

    method Value() returns (v: DbValue)
      ensures v == Print(FormatsOf(items))
    {
      if items.None? { return Null; }
      var a := items.value;
      if |a| == 0 { return Characters("{}"); }
      var strVals := [];
      for i := 0 to |a|
        invariant strVals == Formats(a[..i])
      {
        assert a[..i + 1][..i] == a[..i];
        strVals := strVals + [FormatUuid(a[i])];
      }
      assert a[..|a|] == a;
      return Characters("{" + Join(strVals, ',') + "}");
    }

    /** The loop that parses every part into the slice made for them. */
    method Fill(parts: seq<string>) returns (error: Option<Error>)
      modifies this
      ensures var bad := FirstBad(parts, 0);
        && error == (if bad < |parts| then Some(BadUuid(bad)) else None)
        && items.Some? && Filled(items.value, parts, bad)
    {
      hide ParseUuid;
      var blank: seq<Uuid> := seq(|parts|, _ => NIL_UUID);
      items := Some(blank);
      for i := 0 to |parts|
        invariant FirstBad(parts, 0) == FirstBad(parts, i)
        invariant items.Some? && Filled(items.value, parts, i)
      {
        var parsed := ParseUuid(parts[i]);
        if parsed.None? { return Some(BadUuid(i)); }
        items := Some(items.value[i := parsed.value]);
      }
      return None;
    }

    /** A part that is not a UUID leaves the parts before it in the receiver, and nil UUIDs
        from there on. */
    method Scan(value: DbValue) returns (error: Option<Error>)
      modifies this
      ensures Parse(value).Err? ==> error == Some(Parse(value).error) && items == old(items)
      ensures Parse(value) == Ok(None) ==> error == None && items == None
      ensures Parse(value).Ok? && Parse(value).value.Some? ==>
        var parts := Parse(value).value.value;
        var bad := FirstBad(parts, 0);
        && error == (if bad < |parts| then Some(BadUuid(bad)) else None)
        && items.Some? && Filled(items.value, parts, bad)
    {
      hide Split, Trim, ParseUuid;
      if value.Null? {
        items := None;
        return None;
      }
      if value.Unsupported? { return Some(UnsupportedType); }
      if value.text == "" || value.text == "{}" || Trim(value.text) == "" {
        items := Some([]);
        return None;
      }
      error := Fill(Split(Trim(value.text), ','));
    }
  }

  lemma {:induction false} JoinEdges(parts: seq<string>)
    requires parts != []
    requires forall i :: 0 <= i < |parts| ==> parts[i] != ""
    ensures Join(parts, ',') != ""
    ensures Join(parts, ',')[0] == parts[0][0]
    ensures var t, last := Join(parts, ','), parts[|parts| - 1]; t[|t| - 1] == last[|last| - 1]
  {
    if |parts| > 1 {
      JoinEdges(parts[1..]);
    }
  }

  lemma UuidTextsSurvive(a: seq<Uuid>)
    ensures Survives(Some(Formats(a)))
  {
    hide Join, FormatUuid, ParseUuid;
    var texts := Formats(a);
    forall k | 0 <= k < |texts|
      ensures texts[k] != "" && ',' !in texts[k] && !IsBrace(texts[k][0]) && !IsBrace(texts[k][35])
    {
      assert texts[k] == FormatUuid(a[k]);
    }
    if texts != [] {
      JoinEdges(texts);
      var last := texts[|texts| - 1];
      assert |last| == 36 && texts[0] != "";
    }
  }

  /** Main result: every array of UUIDs is read back as it was written. */
  lemma UuidArrayRoundTrip(a: Option<seq<Uuid>>)
    ensures Parse(Print(FormatsOf(a))) == Ok(FormatsOf(a))
    ensures a.Some? ==>
      && FirstBad(Formats(a.value), 0) == |a.value|
      && forall k :: 0 <= k < |a.value| ==> ParseUuid(Formats(a.value)[k]) == Some(a.value[k])
  {
    hide FormatUuid, ParseUuid, Parse, Print, Formats, Join;
    RoundTripIff(FormatsOf(a));
    if a.Some? {
      UuidTextsSurvive(a.value);
      forall k | 0 <= k < |a.value| ensures ParseUuid(Formats(a.value)[k]) == Some(a.value[k]) {
        UuidRoundTrip(a.value[k]);
      }
    }
  }

  // ---------------------------------------------------------------- writing one object, reading another

  /** Nothing that is written is of an unsupported type. */
  lemma PrintsReadable(a: Option<seq<string>>)
    ensures Parse(Print(a)).Ok?
  {}

  /** Main result: what one array object writes another reads back if and only if the array
      survives; the two may be the same object. */
  method CopyStrings(a: StringArray, b: StringArray) returns (error: Option<Error>)
    modifies b
    ensures error == None && b.items == old(a.items) <==> Survives(old(a.items))
  {
    hide Parse, Print, Survives;
    RoundTripIff(a.items);
    var v := a.Value();
    PrintsReadable(a.items);
    error := b.Scan(v);
  }

  /** The same for channels, by their names. */
  method CopyChannels(a: SharingChannelArray, b: SharingChannelArray) returns (error: Option<Error>)
    modifies b
    ensures error == None && b.items == old(a.items) <==> Survives(NamesOf(old(a.items)))
  {
    hide Parse, Print, Survives, NamesOf;
    RoundTripIff(NamesOf(a.items));
    ghost var written := a.items;
    var v := a.Value();
    PrintsReadable(NamesOf(a.items));
    error := b.Scan(v);
    if NamesOf(b.items) == NamesOf(written) {
      NamesDetermine(b.items, written);
    }
  }

  /** Every array of UUIDs is copied. */
  method CopyUuids(a: UuidArray, b: UuidArray) returns (error: Option<Error>)
    modifies b
    ensures error == None && b.items == old(a.items)
  {
    hide Parse, Print, ParseUuid;
    UuidArrayRoundTrip(a.items);
    ghost var written := a.items;
    var v := a.Value();
    error := b.Scan(v);
    if written.Some? {
      assert b.items.value == written.value;
    }
  }
}
