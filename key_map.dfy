/**
 * The keyboard tables of the Rust device layer: the key names accepted in a key
 * combination such as `ctrl+shift+t`, and the keys that type one character.
 */
module KeyMap {
  import opened Wrappers
  import opened Text
  import opened InputEvents

  datatype KeyError = UnknownKey(part: string)

  /** The name table of `parse_key_combination`, applied to an already lowercased name. */
  function KeyByName(name: string): Option<Key>
  {
    if name == "ctrl" || name == "control" then Some(LeftControl)
    else if name == "alt" then Some(LeftAlt)
    else if name == "shift" then Some(LeftShift)
    else if name == "meta" || name == "win" || name == "super" then Some(LeftMeta)
    else if |name| == 1 && IsAsciiDigit(name[0]) then Some(Digit(DigitValue(name[0])))
    else if name == "." then Some(Dot)
    else if name == "," then Some(Comma)
    else if name == " " then Some(Space)
    else if |name| == 1 && 'a' <= name[0] <= 'z' then Some(Letter((name[0] as int - 32) as char))
    else if name == "f1" then Some(F(1))
    else if name == "f2" then Some(F(2))
    else if name == "f3" then Some(F(3))
    else if name == "f4" then Some(F(4))
    else if name == "f5" then Some(F(5))
    else if name == "f6" then Some(F(6))
    else if name == "f7" then Some(F(7))
    else if name == "f8" then Some(F(8))
    else if name == "f9" then Some(F(9))
    else if name == "f10" then Some(F(10))
    else if name == "f11" then Some(F(11))
    else if name == "f12" then Some(F(12))
    else if name == "tab" then Some(Tab)
    else if name == "enter" || name == "return" then Some(Enter)
    else if name == "escape" || name == "esc" then Some(Esc)
    else if name == "backspace" then Some(BackSpace)
    else if name == "delete" || name == "del" then Some(Delete)
    else if name == "home" then Some(Home)
    else if name == "end" then Some(End)
    else if name == "pageup" then Some(PageUp)
    else if name == "pagedown" then Some(PageDown)
    else if name == "insert" then Some(Insert)
    else None
  }

  /** The key one `+`-separated part names: its lowercase form looked up in the table. */
  function PartKey(part: string): Option<Key>
  {
    KeyByName(RustLower(part))
  }

  /** A lookup from the text of a part to the key it names; `PartKey` is the one the program uses. */
  type PartTable = string -> Option<Key>

  /** The position of the first part that names no key, or `|parts|` when they all do. */
  function FirstUnknown(parts: seq<string>, table: PartTable): (i: nat)
    ensures i <= |parts|
    ensures forall j :: 0 <= j < i ==> table(parts[j]).Some?
    ensures i < |parts| ==> table(parts[i]).None?
  {
    if parts == [] then 0
    else if table(parts[0]).None? then 0
    else 1 + FirstUnknown(parts[1..], table)
  }

  /** The keys of parts that all name one. */
  function KeysOf(parts: seq<string>, table: PartTable): (keys: seq<Key>)
    requires forall j :: 0 <= j < |parts| ==> table(parts[j]).Some?
    ensures |keys| == |parts|
    ensures forall j :: 0 <= j < |parts| ==> keys[j] == table(parts[j]).value
  {
    if parts == [] then [] else [table(parts[0]).value] + KeysOf(parts[1..], table)
  }

  /** Every part names a key. */
  predicate AllKnown(parts: seq<string>, table: PartTable)
  {
    forall j :: 0 <= j < |parts| ==> table(parts[j]).Some?
  }

  /**
   * One key per `+`-separated part, in order, or the error naming (as written) the
   * first part that names no key.
   */
  function ParseWith(combination: string, table: PartTable): (r: Result<seq<Key>, KeyError>)
    ensures r.Success? <==> AllKnown(Split(combination, '+'), table)
    ensures r.Success? ==> var parts := Split(combination, '+');
      |r.value| == |parts| && forall j :: 0 <= j < |parts| ==> r.value[j] == table(parts[j]).value
    ensures r.Failure? ==> var parts := Split(combination, '+');
      exists i :: 0 <= i < |parts| && r.error == UnknownKey(parts[i]) && table(parts[i]).None?
                  && forall j :: 0 <= j < i ==> table(parts[j]).Some?
  {
    var parts := Split(combination, '+');
    var i := FirstUnknown(parts, table);
    if i < |parts| then
      assert !AllKnown(parts, table) by { assert table(parts[i]).None?; }
      Failure(UnknownKey(parts[i]))
    else
      Success(KeysOf(parts, table))
  }

  /** What `parse_key_combination` computes. */
  function ParseCombination(combination: string): Result<seq<Key>, KeyError>
  {
    ParseWith(combination, PartKey)
  }

  /**
   * The loop of `parse_key_combination` over the parts of `combination`, looking every
   * part up in turn and returning at the first part that is no key name, so that nothing
   * is returned but the error.
   */
  method ParseParts(combination: string, table: PartTable) returns (r: Result<seq<Key>, KeyError>)
    ensures r == ParseWith(combination, table)
  {
    var parts := Split(combination, '+');
    var keys: seq<Key> := [];
    var i := 0;
    while i < |parts|
      invariant 0 <= i <= |parts| && |keys| == i
      invariant forall j :: 0 <= j < i ==> table(parts[j]).Some? && keys[j] == table(parts[j]).value
    {
      var part := parts[i];
      var key := table(part);
      if key.None? {
        FirstUnknownAt(parts, i, table);
        return Failure(UnknownKey(part));
      }
      keys := keys + [key.value];
      i := i + 1;
    }
    FirstUnknownAt(parts, |parts|, table);
    assert keys == KeysOf(parts, table);
    r := Success(keys);
  }

  /** `parse_key_combination`, with its name table. */
  method ParseKeyCombination(combination: string) returns (r: Result<seq<Key>, KeyError>)
    ensures r == ParseCombination(combination)
  {
    r := ParseParts(combination, PartKey);
  }

  /** The first unknown part is the one before which every part is known. */
  lemma {:induction false} FirstUnknownAt(parts: seq<string>, i: nat, table: PartTable)
    requires i <= |parts|
    requires forall j :: 0 <= j < i ==> table(parts[j]).Some?
    requires i < |parts| ==> table(parts[i]).None?
    ensures FirstUnknown(parts, table) == i
  {
    if i > 0 {
      FirstUnknownAt(parts[1..], i - 1, table);
    }
  }

  /** A combination with an empty part (`"ctrl+"`, `"+a"`, `"a++b"`, `""`) never parses. */
  lemma EmptyPartFails(combination: string, i: nat)
    requires i < |Split(combination, '+')| && Split(combination, '+')[i] == ""
    ensures ParseCombination(combination).Failure?
  {
    assert PartKey(Split(combination, '+')[i]).None?;
  }

  /** A trailing `+` leaves an empty last part, which is the one the error names. */
  lemma {:induction false} TrailingPlusNamesEmptyPart()
    ensures ParseCombination("ctrl+") == Failure(UnknownKey(""))
  {
    var parts := ["ctrl", ""];
    assert Join(parts, '+') == "ctrl+";
    SplitJoin(parts, '+');
    assert PartKey("ctrl").Some? by { RustLowerOfLowercase("ctrl"); }
    assert PartKey("").None?;
    assert FirstUnknown(parts, PartKey) == 1 by { FirstUnknownAt(parts, 1, PartKey); }
  }

  /** Aliases name the same key. */
  lemma ControlAliases()
    ensures KeyByName("ctrl") == KeyByName("control") == Some(LeftControl)
  {
  }

  lemma MetaAliases()
    ensures KeyByName("meta") == KeyByName("win") == KeyByName("super") == Some(LeftMeta)
  {
  }

  lemma EnterAliases()
    ensures KeyByName("enter") == KeyByName("return") == Some(Enter)
  {
  }

  lemma EscapeAliases()
    ensures KeyByName("escape") == KeyByName("esc") == Some(Esc)
  {
  }

  lemma DeleteAliases()
    ensures KeyByName("delete") == KeyByName("del") == Some(Delete)
  {
  }

  /** Parts that differ only in ASCII case lowercase alike. */
  lemma RustLowerIgnoresAsciiCase(a: string, b: string)
    requires EqIgnoreAsciiCase(a, b)
    ensures RustLower(a) == RustLower(b)
  {
    forall i | 0 <= i < |a|
      ensures RustLowerChar(a[i]) == RustLowerChar(b[i])
    {
      assert AsciiLower(a[i]) == AsciiLower(b[i]);
    }
  }

  /** Two lists of parts that differ only in ASCII case, part by part. */
  predicate PartsAlike(pa: seq<string>, pb: seq<string>)
  {
    |pa| == |pb| && forall j :: 0 <= j < |pa| ==> EqIgnoreAsciiCase(pa[j], pb[j])
  }

  lemma EqIgnoreAsciiCaseTail(a: string, b: string)
    requires EqIgnoreAsciiCase(a, b) && a != []
    ensures EqIgnoreAsciiCase(a[1..], b[1..])
  {
    forall i | 0 <= i < |a| - 1 ensures AsciiLower(a[1..][i]) == AsciiLower(b[1..][i]) {
      assert AsciiLower(a[i + 1]) == AsciiLower(b[i + 1]);
    }
  }

  lemma EqIgnoreAsciiCaseCons(x: char, y: char, u: string, v: string)
    requires AsciiLower(x) == AsciiLower(y) && EqIgnoreAsciiCase(u, v)
    ensures EqIgnoreAsciiCase([x] + u, [y] + v)
  {
    forall i | 0 <= i < |u| + 1 ensures AsciiLower(([x] + u)[i]) == AsciiLower(([y] + v)[i]) {
      if i > 0 {
        assert ([x] + u)[i] == u[i - 1] && ([y] + v)[i] == v[i - 1];
      }
    }
  }

  /** Splitting two texts that differ only in ASCII case gives parts that differ only in ASCII case. */
  lemma {:induction false} SplitIgnoresAsciiCase(a: string, b: string)
    requires EqIgnoreAsciiCase(a, b)
    ensures PartsAlike(Split(a, '+'), Split(b, '+'))
  {
    if a != [] {
      EqIgnoreAsciiCaseTail(a, b);
      SplitIgnoresAsciiCase(a[1..], b[1..]);
      assert AsciiLower(a[0]) == AsciiLower(b[0]);
      var ra, rb := Split(a[1..], '+'), Split(b[1..], '+');
      var pa, pb := Split(a, '+'), Split(b, '+');
      if a[0] != '+' {
        assert pa == [[a[0]] + ra[0]] + ra[1..];
        assert pb == [[b[0]] + rb[0]] + rb[1..];
        EqIgnoreAsciiCaseCons(a[0], b[0], ra[0], rb[0]);
        forall j | 0 <= j < |pa| ensures EqIgnoreAsciiCase(pa[j], pb[j]) {
          if j > 0 {
            assert pa[j] == ra[j] && pb[j] == rb[j];
          }
        }
      } else {
        assert pa == [[]] + ra && pb == [[]] + rb;
        forall j | 0 <= j < |pa| ensures EqIgnoreAsciiCase(pa[j], pb[j]) {
          if j > 0 {
            assert pa[j] == ra[j - 1] && pb[j] == rb[j - 1];
          }
        }
      }
    } else {
      assert b == [];
    }
  }

  /** Key names are case-insensitive: `CTRL+Shift+T` parses to the keys of `ctrl+shift+t`. */
  lemma CombinationIgnoresAsciiCase(a: string, b: string)
    requires EqIgnoreAsciiCase(a, b)
    ensures ParseCombination(a).Success? == ParseCombination(b).Success?
    ensures ParseCombination(a).Success? ==> ParseCombination(a).value == ParseCombination(b).value
  {
    SplitIgnoresAsciiCase(a, b);
    var pa, pb := Split(a, '+'), Split(b, '+');
    assert PartsAlike(pa, pb);
    forall j | 0 <= j < |pa| ensures PartKey(pa[j]) == PartKey(pb[j]) {
      RustLowerIgnoresAsciiCase(pa[j], pb[j]);
    }
  }

  /** The canonical name of a key in the table, if it has one. */
  function NameOf(k: Key): Option<string>
  {
    match k
    case Letter(l) => Some([AsciiLower(l)])
    case Digit(d) => Some([('0' as int + d) as char])
    case F(n) => Some("f" + DecimalString(n))
    case LeftControl => Some("ctrl")
    case LeftAlt => Some("alt")
    case LeftShift => Some("shift")
    case LeftMeta => Some("meta")
    case Space => Some(" ")
    case Tab => Some("tab")
    case Enter => Some("enter")
    case Esc => Some("escape")
    case BackSpace => Some("backspace")
    case Delete => Some("delete")
    case Home => Some("home")
    case End => Some("end")
    case PageUp => Some("pageup")
    case PageDown => Some("pagedown")
    case Insert => Some("insert")
    case Dot => Some(".")
    case Comma => Some(",")
    case _ => None
  }

  /** Every canonical name is its own lowercase form and holds no `+`. */
  lemma NameOfLowercase(k: Key)
    requires NameOf(k).Some?
    ensures '+' !in NameOf(k).value
    ensures RustLower(NameOf(k).value) == NameOf(k).value
  {
    var name := NameOf(k).value;
    if k.F? {
      var n: int := k.number;
      if n < 10 {
        assert name == ['f', ('0' as int + n) as char];
      } else {
        assert DecimalString(n) == DecimalString(n / 10) + [('0' as int + n % 10) as char];
        assert name == ['f', '1', ('0' as int + n % 10) as char];
      }
      RustLowerOfLowercase(name);
    } else if k.Letter? || k.Digit? {
      RustLowerOfLowercase(name);
    } else {
      NamedKeysLowercase(k);
    }
  }

  lemma FunctionNameInTable(n: FunctionNumber)
    ensures KeyByName(NameOf(F(n)).value) == Some(F(n))
  {
    var m: int := n;
    var name := NameOf(F(n)).value;
    if m < 10 {
      assert name == ['f', ('0' as int + m) as char];
    } else {
      assert DecimalString(m) == DecimalString(m / 10) + [('0' as int + m % 10) as char];
      assert name == ['f', '1', ('0' as int + m % 10) as char];
    }
  }

  /** A name made of lowercase letters and the punctuation keys' characters. */
  lemma LowercaseName(s: string)
    requires forall i :: 0 <= i < |s| ==> 'a' <= s[i] <= 'z' || s[i] in " .,"
    ensures RustLower(s) == s && '+' !in s
  {
    RustLowerOfLowercase(s);
  }

  lemma LeftControlName()
    ensures NameOf(LeftControl) == Some("ctrl") && KeyByName("ctrl") == Some(LeftControl)
  {
  }

  lemma LeftAltName()
    ensures NameOf(LeftAlt) == Some("alt") && KeyByName("alt") == Some(LeftAlt)
  {
  }

  lemma LeftShiftName()
    ensures NameOf(LeftShift) == Some("shift") && KeyByName("shift") == Some(LeftShift)
  {
  }

  lemma LeftMetaName()
    ensures NameOf(LeftMeta) == Some("meta") && KeyByName("meta") == Some(LeftMeta)
  {
  }

  lemma SpaceName()
    ensures NameOf(Space) == Some(" ") && KeyByName(" ") == Some(Space)
  {
  }

  lemma TabName()
    ensures NameOf(Tab) == Some("tab") && KeyByName("tab") == Some(Tab)
  {
  }

  lemma EnterName()
    ensures NameOf(Enter) == Some("enter") && KeyByName("enter") == Some(Enter)
  {
  }

  lemma EscName()
    ensures NameOf(Esc) == Some("escape") && KeyByName("escape") == Some(Esc)
  {
  }

  lemma BackSpaceName()
    ensures NameOf(BackSpace) == Some("backspace") && KeyByName("backspace") == Some(BackSpace)
  {
  }

  lemma DeleteName()
    ensures NameOf(Delete) == Some("delete") && KeyByName("delete") == Some(Delete)
  {
  }

  lemma HomeName()
    ensures NameOf(Home) == Some("home") && KeyByName("home") == Some(Home)
  {
  }

  lemma EndName()
    ensures NameOf(End) == Some("end") && KeyByName("end") == Some(End)
  {
  }

  lemma PageUpName()
    ensures NameOf(PageUp) == Some("pageup") && KeyByName("pageup") == Some(PageUp)
  {
  }

  lemma PageDownName()
    ensures NameOf(PageDown) == Some("pagedown") && KeyByName("pagedown") == Some(PageDown)
  {
  }

  lemma InsertName()
    ensures NameOf(Insert) == Some("insert") && KeyByName("insert") == Some(Insert)
  {
  }

  lemma DotName()
    ensures NameOf(Dot) == Some(".") && KeyByName(".") == Some(Dot)
  {
  }

  lemma CommaName()
    ensures NameOf(Comma) == Some(",") && KeyByName(",") == Some(Comma)
  {
  }

  /** The word names are lowercase. */
  lemma NamedKeysLowercase(k: Key)
    requires NameOf(k).Some? && !k.F? && !k.Letter? && !k.Digit?
    ensures '+' !in NameOf(k).value
    ensures RustLower(NameOf(k).value) == NameOf(k).value
  {
    match k
    case LeftControl => assert NameOf(k).value == "ctrl"; LowercaseName("ctrl");
    case LeftAlt => assert NameOf(k).value == "alt"; LowercaseName("alt");
    case LeftShift => assert NameOf(k).value == "shift"; LowercaseName("shift");
    case LeftMeta => assert NameOf(k).value == "meta"; LowercaseName("meta");
    case Space => assert NameOf(k).value == " "; LowercaseName(" ");
    case Tab => assert NameOf(k).value == "tab"; LowercaseName("tab");
    case Enter => assert NameOf(k).value == "enter"; LowercaseName("enter");
    case Esc => assert NameOf(k).value == "escape"; LowercaseName("escape");
    case BackSpace => assert NameOf(k).value == "backspace"; LowercaseName("backspace");
    case Delete => assert NameOf(k).value == "delete"; LowercaseName("delete");
    case Home => assert NameOf(k).value == "home"; LowercaseName("home");
    case End => assert NameOf(k).value == "end"; LowercaseName("end");
    case PageUp => assert NameOf(k).value == "pageup"; LowercaseName("pageup");
    case PageDown => assert NameOf(k).value == "pagedown"; LowercaseName("pagedown");
    case Insert => assert NameOf(k).value == "insert"; LowercaseName("insert");
    case Dot => assert NameOf(k).value == "."; LowercaseName(".");
    case Comma => assert NameOf(k).value == ","; LowercaseName(",");
    case _ =>
  }


  /** The word names are in the table, each for its own key. */
  lemma NamedKeysInTable(k: Key)
    requires NameOf(k).Some? && !k.F? && !k.Letter? && !k.Digit?
    ensures KeyByName(NameOf(k).value) == Some(k)
  {
    match k
    case LeftControl => LeftControlName();
    case LeftAlt => LeftAltName();
    case LeftShift => LeftShiftName();
    case LeftMeta => LeftMetaName();
    case Space => SpaceName();
    case Tab => TabName();
    case Enter => EnterName();
    case Esc => EscName();
    case BackSpace => BackSpaceName();
    case Delete => DeleteName();
    case Home => HomeName();
    case End => EndName();
    case PageUp => PageUpName();
    case PageDown => PageDownName();
    case Insert => InsertName();
    case Dot => DotName();
    case Comma => CommaName();
    case _ =>
  }


  /** Every canonical name is in the table, for the key it is the name of. */
  lemma NameOfInTable(k: Key)
    requires NameOf(k).Some?
    ensures KeyByName(NameOf(k).value) == Some(k)
  {
    if k.F? {
      FunctionNameInTable(k.number);
    } else if !k.Letter? && !k.Digit? {
      NamedKeysInTable(k);
    }
  }

  /** Parsing the canonical name of a key gives that key. */
  lemma NameOfResolves(k: Key)
    requires NameOf(k).Some?
    ensures '+' !in NameOf(k).value
    ensures PartKey(NameOf(k).value) == Some(k)
  {
    NameOfLowercase(k);
    NameOfInTable(k);
  }

  /** Joining canonical names with `+` and parsing the result gives the keys back. */
  lemma {:induction false} ParseJoinedNames(keys: seq<Key>)
    requires |keys| >= 1
    requires forall j :: 0 <= j < |keys| ==> NameOf(keys[j]).Some?
    ensures var names := seq(|keys|, j requires 0 <= j < |keys| => NameOf(keys[j]).value);
      ParseCombination(Join(names, '+')) == Success(keys)
  {
    var names := seq(|keys|, j requires 0 <= j < |keys| => NameOf(keys[j]).value);
    forall j | 0 <= j < |names| ensures '+' !in names[j] && PartKey(names[j]) == Some(keys[j]) {
      NameOfResolves(keys[j]);
    }
    SplitJoin(names, '+');
    var r := ParseCombination(Join(names, '+'));
    assert r.value == keys;
  }

  /** The characters `char_to_keys` has a key for, once ASCII letters are lowered. */
  predicate Typeable(c: char)
  {
    'a' <= c <= 'z' || 'A' <= c <= 'Z' || IsAsciiDigit(c) || c in " .;:-_,/?\n"
  }

  /** The match of `char_to_keys` on `c.to_ascii_lowercase()`. */
  function BaseKeys(c: char): (keys: seq<Key>)
    ensures |keys| <= 2
    ensures keys == [] <==> !Typeable(c) || 'A' <= c <= 'Z'
  {
    if 'a' <= c <= 'z' then [Letter((c as int - 32) as char)]
    else if IsAsciiDigit(c) then [Digit(DigitValue(c))]
    else if c == ' ' then [Space]
    else if c == '.' then [Dot]
    else if c == ';' then [SemiColon]
    else if c == ':' then [LeftShift, SemiColon]
    else if c == '-' then [Minus]
    else if c == '_' then [LeftShift, Minus]
    else if c == ',' then [Comma]
    else if c == '/' then [Slash]
    else if c == '?' then [LeftShift, Slash]
    else if c == '\n' then [Enter]
    else []
  }

  /**
   * `char_to_keys`: the keys to hold, modifiers first, to type `c`; LeftShift first when
   * `c` is uppercase. `upper` says which characters outside ASCII are uppercase.
   */
  function CharToKeys(c: char, upper: CaseTable): (keys: seq<Key>)
    ensures |keys| <= 2
    ensures IsUppercase(c, upper) ==> |keys| >= 1 && keys[0] == LeftShift
    ensures keys == [] <==> !IsUppercase(c, upper) && !Typeable(c)
  {
    (if IsUppercase(c, upper) then [LeftShift] else []) + BaseKeys(AsciiLower(c))
  }

  /** The individual cases: letters, the shifted punctuation, and uppercase characters outside ASCII. */
  lemma CharToKeysCases(c: char, upper: CaseTable)
    ensures 'A' <= c <= 'Z' ==> CharToKeys(c, upper) == [LeftShift, Letter(c)]
    ensures 'a' <= c <= 'z' ==> CharToKeys(c, upper) == [Letter((c as int - 32) as char)]
    ensures c == ':' ==> CharToKeys(c, upper) == [LeftShift, SemiColon]
    ensures c == '_' ==> CharToKeys(c, upper) == [LeftShift, Minus]
    ensures c == '?' ==> CharToKeys(c, upper) == [LeftShift, Slash]
    ensures IsUppercase(c, upper) && !('A' <= c <= 'Z') ==> CharToKeys(c, upper) == [LeftShift]
  {
  }

  /** The character a key chord from `char_to_keys` types: the inverse of the table on ASCII. */
  function ChordChar(keys: seq<Key>): Option<char>
  {
    if |keys| == 1 then
      match keys[0]
      case Letter(l) => Some(AsciiLower(l))
      case Digit(d) => Some(('0' as int + d) as char)
      case Space => Some(' ')
      case Dot => Some('.')
      case SemiColon => Some(';')
      case Minus => Some('-')
      case Comma => Some(',')
      case Slash => Some('/')
      case Enter => Some('\n')
      case _ => None
    else if |keys| == 2 && keys[0] == LeftShift then
      match keys[1]
      case Letter(l) => Some(l)
      case SemiColon => Some(':')
      case Minus => Some('_')
      case Slash => Some('?')
      case _ => None
    else None
  }

  /** Every ASCII character `char_to_keys` can type is recovered from its keys. */
  lemma ChordCharInverts(c: char, upper: CaseTable)
    requires c < '\U{0080}' && Typeable(c)
    ensures ChordChar(CharToKeys(c, upper)) == Some(c)
  {
    if 'A' <= c <= 'Z' {
      assert CharToKeys(c, upper) == [LeftShift, Letter(c)];
    } else if 'a' <= c <= 'z' {
      assert CharToKeys(c, upper) == [Letter((c as int - 32) as char)];
    } else {
      assert CharToKeys(c, upper) == BaseKeys(c);
      BaseKeysInvert(c);
    }
  }

  lemma BaseKeysInvert(c: char)
    requires IsAsciiDigit(c) || c in " .;:-_,/?\n"
    ensures ChordChar(BaseKeys(c)) == Some(c)
  {
    if !IsAsciiDigit(c) {
      PunctuationInverts(c);
    }
  }

  lemma PunctuationInverts(c: char)
    requires c in " .;:-_,/?\n"
    ensures ChordChar(BaseKeys(c)) == Some(c)
  {
  }

  /** Hence two ASCII characters that `char_to_keys` can type are typed with different keys. */
  lemma CharToKeysInjective(c: char, d: char, upper: CaseTable)
    requires c < '\U{0080}' && d < '\U{0080}' && Typeable(c) && Typeable(d)
    requires CharToKeys(c, upper) == CharToKeys(d, upper)
    ensures c == d
  {
    ChordCharInverts(c, upper);
    ChordCharInverts(d, upper);
  }
}
