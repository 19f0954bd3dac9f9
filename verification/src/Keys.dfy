/**
Object keys and prefixes: the component rules, and why they are safe to map onto paths.

A string is a sequence of Unicode scalar values, as in the source; lengths are those of its UTF-8
encoding.
*/
module Keys {
  import opened Wrappers
  import Utf8

  const MAX_KEY_LEN := 1024
  const MAX_COMPONENT_LEN := 255

  function Utf8Width(c: char): (n: nat)
    ensures 1 <= n <= 4
  {
    if c as int < 0x80 then 1
    else if c as int < 0x800 then 2
    else if c as int < 0x1_0000 then 3
    else 4
  }

  /** The length of the UTF-8 encoding of `s`. */
  function ByteLen(s: string): (n: nat)
    ensures |s| <= n <= 4 * |s|
  {
    if s == "" then 0 else Utf8Width(s[0]) + ByteLen(s[1..])
  }

  lemma {:induction false} ByteLenConcat(a: string, b: string)
    ensures ByteLen(a + b) == ByteLen(a) + ByteLen(b)
  {
    if a == "" {
      assert a + b == b;
    } else {
      ByteLenConcat(a[1..], b);
      assert (a + b)[1..] == a[1..] + b;
    }
  }

  /** The length in bytes is that of the encoding. */
  lemma {:induction false} ByteLenIsEncoded(s: string)
    ensures ByteLen(s) == |Utf8.Encode(s)|
  {
    if s == "" {
    } else {
      ByteLenIsEncoded(s[1..]);
    }
  }

  // ---- Components. ----

  function Split(s: string): (parts: seq<string>)
    ensures |parts| > 0
  {
    if s == "" then [""]
    else
      var rest := Split(s[1..]);
      if s[0] == '/' then [""] + rest else [[s[0]] + rest[0]] + rest[1..]
  }

  function Join(parts: seq<string>): string
    requires |parts| > 0
  {
    if |parts| == 1 then parts[0] else parts[0] + "/" + Join(parts[1..])
  }

  ghost predicate SlashFree(s: string) {
    '/' !in s
  }

  lemma {:induction false} SplitIsSlashFree(s: string)
    ensures forall i :: 0 <= i < |Split(s)| ==> SlashFree(Split(s)[i])
  {
    if s == "" {
    } else {
      SplitIsSlashFree(s[1..]);
    }
  }

  lemma {:induction false} JoinOfSplit(s: string)
    ensures Join(Split(s)) == s
  {
    if s == "" {
    } else {
      JoinOfSplit(s[1..]);
      var rest := Split(s[1..]);
      if s[0] == '/' {
        assert Split(s)[1..] == rest;
      } else {
        hide Split;
        JoinWithOneMore(s[0], rest);
      }
    }
  }

  lemma JoinWithOneMore(c: char, parts: seq<string>)
    requires |parts| > 0
    ensures Join([[c] + parts[0]] + parts[1..]) == [c] + Join(parts)
  {
    var longer := [[c] + parts[0]] + parts[1..];
    assert longer[0] == [c] + parts[0] && longer[1..] == parts[1..];
    JoinOnce(longer);
    JoinOnce(parts);
    hide Join;
    if |parts| > 1 { Regrouped([c], parts[0], "/" + Join(parts[1..])); }
  }

  lemma JoinOnce(parts: seq<string>)
    requires |parts| > 0
    ensures Join(parts) == if |parts| == 1 then parts[0] else parts[0] + ("/" + Join(parts[1..]))
  {
    if |parts| > 1 { Regrouped(parts[0], "/", Join(parts[1..])); }
  }

  lemma Regrouped(a: string, b: string, c: string)
    ensures a + b + c == a + (b + c)
  {
  }

  lemma {:induction false} SplitOfJoin(parts: seq<string>)
    requires |parts| > 0 && forall i :: 0 <= i < |parts| ==> SlashFree(parts[i])
    ensures Split(Join(parts)) == parts
    decreases |parts|, |parts[0]|
  {
    var s := Join(parts);
    if parts[0] == "" {
      if |parts| > 1 {
        SplitOfJoin(parts[1..]);
        assert s == "/" + Join(parts[1..]);
        assert s[1..] == Join(parts[1..]);
      }
    } else {
      var shorter := [parts[0][1..]] + parts[1..];
      forall i | 0 <= i < |shorter| ensures SlashFree(shorter[i]) {
        assert SlashFree(parts[i]);
      }
      SplitOfJoin(shorter);
      assert shorter[1..] == parts[1..];
      assert s == [parts[0][0]] + Join(shorter);
      assert s[1..] == Join(shorter);
      assert SlashFree(parts[0]);
      assert [parts[0][0]] + shorter[0] == parts[0];
    }
  }

  // ---- The rules. ----

  datatype KeyError =
    | EmptyKey
    | KeyTooLong(bytes: nat)
    | OnlySeparator
    | EmptyComponent
    | DotComponent(component: string)
    | Backslash
    | ControlCharacter
    | Noncharacter
    | ComponentTooLong(bytes: nat)

  predicate IsControl(c: char) {
    c as int <= 0x1F || 0x7F <= c as int <= 0x9F
  }

  predicate IsNoncharacter(c: char) {
    c as int == 0xFFFE || c as int == 0xFFFF
  }

  function ValidateComponent(c: string): Result<(), KeyError> {
    if c == "" then Err(EmptyComponent)
    else if c == "." || c == ".." then Err(DotComponent(c))
    else if '\\' in c then Err(Backslash)
    else if exists i :: 0 <= i < |c| && IsControl(c[i]) then Err(ControlCharacter)
    else if exists i :: 0 <= i < |c| && IsNoncharacter(c[i]) then Err(Noncharacter)
    else if ByteLen(c) > MAX_COMPONENT_LEN then Err(ComponentTooLong(ByteLen(c)))
    else Ok(())
  }

  function ValidateComponents(parts: seq<string>): Result<(), KeyError> {
    if parts == [] then Ok(())
    else
      var r := ValidateComponent(parts[0]);
      if r.Err? then r else ValidateComponents(parts[1..])
  }

  function ValidateKey(key: string): Result<(), KeyError> {
    if key == "" then Err(EmptyKey)
    else if ByteLen(key) > MAX_KEY_LEN then Err(KeyTooLong(ByteLen(key)))
    else ValidateComponents(Split(key))
  }

  function StripSlash(prefix: string): string {
    if prefix != "" && prefix[|prefix| - 1] == '/' then prefix[..|prefix| - 1] else prefix
  }

  function ValidatePrefix(prefix: string): Result<(), KeyError> {
    if prefix == "" then Ok(())
    else
      var normalized := StripSlash(prefix);
      if normalized == "" then Err(OnlySeparator) else ValidateKey(normalized)
  }

  // ---- What the rules accept, read off the characters. ----

  /** `key[i..j]` is one component of `key`: a stretch without `/`, between ends or separators. */
  ghost predicate Piece(key: string, i: int, j: int) {
    && 0 <= i <= j <= |key|
    && (i == 0 || key[i - 1] == '/')
    && (j == |key| || key[j] == '/')
    && SlashFree(key[i..j])
  }

  ghost predicate PlainName(c: string) {
    && c != "" && c != "." && c != ".." && ByteLen(c) <= 255
    && forall i :: 0 <= i < |c| ==>
         c[i] != '\\' && c[i] as int > 0x1F && !(0x7F <= c[i] as int <= 0x9F) && c[i] as int !in {0xFFFE, 0xFFFF}
  }

  ghost predicate GoodKey(key: string) {
    && key != "" && ByteLen(key) <= 1024
    && forall i, j :: Piece(key, i, j) ==> PlainName(key[i..j])
  }

  /** `c` breaks the rule that `e` names. */
  ghost predicate Breaks(c: string, e: KeyError) {
    match e
    case EmptyComponent => c == ""
    case DotComponent(d) => c == d && d in {".", ".."}
    case Backslash => '\\' in c
    case ControlCharacter => exists i :: 0 <= i < |c| && IsControl(c[i])
    case Noncharacter => '\U{FFFE}' in c || '\U{FFFF}' in c
    case ComponentTooLong(bytes) => bytes == ByteLen(c) > 255
    case _ => false
  }

  ghost predicate HasControl(c: string) {
    exists i :: 0 <= i < |c| && (c[i] as int <= 0x1F || 0x7F <= c[i] as int <= 0x9F)
  }

  /** A component is accepted exactly when it is a plain name, and refused by the first rule it breaks. */
  lemma ComponentRule(c: string)
    ensures ValidateComponent(c).Ok? <==> PlainName(c)
    ensures ValidateComponent(c).Err? ==> Breaks(c, ValidateComponent(c).error)
    ensures var r := ValidateComponent(c);
            && (c == "" ==> r == Err(EmptyComponent))
            && (c == "." || c == ".." ==> r == Err(DotComponent(c)))
            && ('\\' in c ==> r == Err(Backslash))
            && ('\\' !in c && HasControl(c) ==> r == Err(ControlCharacter))
            && ('\\' !in c && !HasControl(c) && ('\U{FFFE}' in c || '\U{FFFF}' in c) ==> r == Err(Noncharacter))
            && ('\\' !in c && !HasControl(c) && '\U{FFFE}' !in c && '\U{FFFF}' !in c && ByteLen(c) > 255 ==>
                  r == Err(ComponentTooLong(ByteLen(c))))
  {
    ShortOnes(c);
    ControlRule(c);
    NoncharacterRule(c);
    PlainNameParts(c);
    hide IsControl, IsNoncharacter, HasControl, PlainName, ByteLen;
  }

  lemma ControlRule(c: string)
    ensures HasControl(c) <==> exists i :: 0 <= i < |c| && IsControl(c[i])
    ensures c == "." || c == ".." ==> !HasControl(c)
  {
  }

  lemma NoncharacterRule(c: string)
    ensures '\U{FFFE}' in c || '\U{FFFF}' in c <==> exists i :: 0 <= i < |c| && IsNoncharacter(c[i])
  {
    if i :| 0 <= i < |c| && IsNoncharacter(c[i]) {
      assert c[i] == '\U{FFFE}' || c[i] == '\U{FFFF}';
    }
  }

  lemma PlainNameParts(c: string)
    ensures PlainName(c) <==>
              && c != "" && c != "." && c != ".." && ByteLen(c) <= 255 && '\\' !in c && !HasControl(c)
              && '\U{FFFE}' !in c && '\U{FFFF}' !in c
  {
    hide ByteLen;
    if '\U{FFFE}' !in c && '\U{FFFF}' !in c {
      forall i | 0 <= i < |c| ensures c[i] as int !in {0xFFFE, 0xFFFF} {
        assert c[i] != '\U{FFFE}' && c[i] != '\U{FFFF}';
      }
    }
  }

  lemma ShortOnes(c: string)
    ensures c == "" || c == "." || c == ".." ==> '\\' !in c && ByteLen(c) <= 255
  {
    if c == "." { assert c[1..] == ""; }
    if c == ".." { assert c[1..] == "." && c[1..][1..] == ""; }
  }

  lemma {:induction false} ComponentsRule(parts: seq<string>)
    ensures ValidateComponents(parts).Ok? <==> forall i :: 0 <= i < |parts| ==> PlainName(parts[i])
  {
    if parts == [] {
    } else {
      ComponentRule(parts[0]);
      ComponentsRule(parts[1..]);
      hide PlainName, ValidateComponent;
      assert forall i :: 0 <= i < |parts[1..]| ==> parts[1..][i] == parts[i + 1];
      if ValidateComponents(parts).Ok? {
        forall i | 0 <= i < |parts| ensures PlainName(parts[i]) {
          if i > 0 { assert parts[i] == parts[1..][i - 1]; }
        }
      }
    }
  }

  function Slashes(s: string): nat {
    if s == "" then 0 else (if s[0] == '/' then 1 else 0) + Slashes(s[1..])
  }

  /** A component beyond the first character is a component of the rest. */
  lemma TailComponent(key: string, m: nat)
    requires key != "" && m < |Split(key[1..])| && (key[0] == '/' || m > 0)
    ensures var n := if key[0] == '/' then m + 1 else m;
            n < |Split(key)| && Split(key)[n] == Split(key[1..])[m]
  {
  }

  lemma HeadComponent(key: string)
    ensures key != "" && key[0] != '/' ==> Split(key)[0] == [key[0]] + Split(key[1..])[0]
    ensures key == "" || key[0] == '/' ==> Split(key)[0] == ""
  {
  }

  lemma PieceOfRest(key: string, i: int, j: int)
    requires Piece(key, i, j) && i > 0
    ensures var rest := key[1..];
            && Piece(rest, i - 1, j - 1) && rest[i - 1..j - 1] == key[i..j]
            && Slashes(key[..i]) == Slashes(rest[..i - 1]) + (if key[0] == '/' then 1 else 0)
            && (key[0] != '/' ==> i > 1)
  {
    assert key[1..][i - 1..j - 1] == key[i..j] && key[1..][..i - 1] == key[..i][1..];
  }

  lemma FirstPiece(key: string, j: int)
    requires Piece(key, 0, j)
    ensures j > 0 ==> key[0] != '/' && Piece(key[1..], 0, j - 1) && key[0..j] == [key[0]] + key[1..][0..j - 1]
    ensures j == 0 ==> key == "" || key[0] == '/'
  {
    if j > 0 {
      assert key[0] == key[0..j][0] && key[1..][0..j - 1] == key[0..j][1..];
    }
  }

  /** The component after `n` separators is the `n`-th that `Split` yields. */
  lemma {:induction false} PieceInSplit(key: string, i: int, j: int)
    requires Piece(key, i, j)
    ensures var n := Slashes(key[..i]);
            && n < |Split(key)| && Split(key)[n] == key[i..j] && (i > 0 ==> n > 0)
  {
    hide SlashFree, Split;
    if i > 0 {
      hide Slashes;
      PieceOfRest(key, i, j);
      PieceInSplit(key[1..], i - 1, j - 1);
      TailComponent(key, Slashes(key[1..][..i - 1]));
    } else {
      assert Slashes(key[..0]) == 0;
      FirstPiece(key, j);
      HeadComponent(key);
      if j > 0 { PieceInSplit(key[1..], 0, j - 1); }
    }
  }

  lemma {:induction false} SplitIsPiece(key: string, n: nat) returns (i: int, j: int)
    requires n < |Split(key)|
    ensures Piece(key, i, j) && key[i..j] == Split(key)[n] && (n == 0 <==> i == 0)
  {
    if key == "" {
      i, j := 0, 0;
    } else if key[0] == '/' && n == 0 {
      i, j := 0, 0;
    } else {
      var rest := key[1..];
      i, j := SplitIsPiece(rest, if key[0] == '/' then n - 1 else n);
      assert rest[i..j] == key[i + 1..j + 1];
      if key[0] != '/' && n == 0 {
        assert key[0..j + 1] == [key[0]] + rest[0..j];
        i, j := 0, j + 1;
      } else {
        i, j := i + 1, j + 1;
      }
    }
  }

  /**
  `ValidateKey` accepts exactly the keys that are well-formed character by character; an empty or
  overlong key is refused as such, any other for a component.
  */
  lemma KeyRule(key: string)
    ensures ValidateKey(key).Ok? <==> GoodKey(key)
    ensures ValidateKey(key) == Err(EmptyKey) <==> key == ""
    ensures key != "" && ByteLen(key) > 1024 ==> ValidateKey(key) == Err(KeyTooLong(ByteLen(key)))
    ensures key != "" && ByteLen(key) <= 1024 && !GoodKey(key) ==> ValidateKey(key) == ValidateComponents(Split(key))
  {
    NotEmptyKey(Split(key));
    ComponentsRule(Split(key));
    hide PlainName, Split, ValidateComponents;
    if ValidateKey(key).Ok? {
      forall i, j | Piece(key, i, j) ensures PlainName(key[i..j]) {
        PieceInSplit(key, i, j);
      }
    }
    if GoodKey(key) {
      forall n | 0 <= n < |Split(key)| ensures PlainName(Split(key)[n]) {
        var i, j := SplitIsPiece(key, n);
      }
    }
  }

  lemma {:induction false} NotEmptyKey(parts: seq<string>)
    ensures ValidateComponents(parts) != Err(EmptyKey)
  {
    if parts == [] {
    } else {
      NotEmptyKey(parts[1..]);
    }
  }

  /** A refusal over a component names a rule that the first bad component breaks. */
  lemma {:induction false} FirstOffender(parts: seq<string>) returns (n: nat)
    requires ValidateComponents(parts).Err?
    ensures n < |parts| && Breaks(parts[n], ValidateComponents(parts).error)
    ensures forall i :: 0 <= i < n ==> PlainName(parts[i])
  {
    ComponentRule(parts[0]);
    hide PlainName, Breaks, ValidateComponent;
    if ValidateComponent(parts[0]).Err? {
      n := 0;
    } else {
      var m := FirstOffender(parts[1..]);
      n := m + 1;
      forall i | 0 <= i < n ensures PlainName(parts[i]) {
        if i > 0 { assert parts[i] == parts[1..][i - 1]; }
      }
    }
  }

  predicate Slashed(s: string) {
    s != "" && s[|s| - 1] == '/'
  }

  lemma NotOnlySeparator(key: string)
    ensures ValidateKey(key) != Err(OnlySeparator)
  {
    if ValidateComponents(Split(key)).Err? { var n := FirstOffender(Split(key)); }
  }

  /** Apart from a trailing `/` and the empty prefix, the prefix rule is the key rule. */
  lemma PrefixRule(prefix: string)
    ensures ValidatePrefix(prefix).Ok? <==>
              prefix == "" || GoodKey(prefix) || exists key :: GoodKey(key) && prefix == key + "/"
    ensures ValidatePrefix(prefix).Ok? && prefix != "" ==> GoodKey(StripSlash(prefix))
    ensures ValidatePrefix(prefix) == Err(OnlySeparator) <==> prefix == "/"
    ensures forall key :: !GoodKey(key) && key != "" && (prefix == key + "/" || (prefix == key && !Slashed(key))) ==>
              ValidatePrefix(prefix) == ValidateKey(key)
  {
    NotOnlySeparator(StripSlash(prefix));
    Stripped(prefix);
    KeyRule(StripSlash(prefix));
    if Slashed(prefix) { NoGoodKey(prefix); }
    hide GoodKey, ValidateKey, StripSlash;
  }

  lemma Stripped(prefix: string)
    ensures forall key :: prefix == key + "/" ==> StripSlash(prefix) == key && Slashed(prefix)
    ensures Slashed(prefix) ==> prefix == StripSlash(prefix) + "/"
    ensures !Slashed(prefix) ==> StripSlash(prefix) == prefix
    ensures StripSlash(prefix) == "" <==> prefix == "" || prefix == "/"
  {
  }

  /** What ends with a separator ends with an empty component. */
  lemma NoGoodKey(key: string)
    requires Slashed(key)
    ensures !GoodKey(key)
  {
    var n := |key|;
    assert Piece(key, n, n) && !PlainName(key[n..n]);
  }
}
