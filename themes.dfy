/** utils/constants.ts: the ThemeColor string enum and the THEMES style table. */
module Themes {
  import opened JsString
  import opened JsNumber

  datatype Option<T> = None | Some(value: T)

  /** The four phosphor colours, in declaration order. */
  datatype ThemeColor = AMBER | GREEN | CYAN | WHITE

  const Members: seq<ThemeColor> := [AMBER, GREEN, CYAN, WHITE]

  /** The member's key: the identifier on the left of its enum declaration. */
  function KeyOf(t: ThemeColor): string {
    match t
    case AMBER => "AMBER"
    case GREEN => "GREEN"
    case CYAN => "CYAN"
    case WHITE => "WHITE"
  }

  /** The member's runtime value: the string literal on the right of its declaration. */
  function ValueOf(t: ThemeColor): string {
    match t
    case AMBER => "AMBER"
    case GREEN => "GREEN"
    case CYAN => "CYAN"
    case WHITE => "WHITE"
  }

  /** Object.keys(ThemeColor): a string enum has no reverse mapping, so its own keys are
      the member keys, in declaration order. */
  function ObjectKeys(): seq<string> {
    seq(|Members|, i requires 0 <= i < |Members| => KeyOf(Members[i]))
  }

  /** The property names every object inherits from Object.prototype. */
  const PrototypeKeys: set<string> := {
    "constructor", "__defineGetter__", "__defineSetter__", "hasOwnProperty",
    "__lookupGetter__", "__lookupSetter__", "isPrototypeOf", "propertyIsEnumerable",
    "toString", "valueOf", "__proto__", "toLocaleString"
  }

  /** `key in ThemeColor`: an own key of the enum object or an inherited one. */
  predicate HasProperty(key: string) {
    key in ObjectKeys() || key in PrototypeKeys
  }

  /** `s as ThemeColor` read back: the member whose runtime value is `s`, if any. */
  function FromValue(s: string): (r: Option<ThemeColor>)
    ensures r.Some? ==> ValueOf(r.value) == s
    ensures r.None? ==> forall t :: ValueOf(t) != s
  {
    if s == "AMBER" then Some(AMBER)
    else if s == "GREEN" then Some(GREEN)
    else if s == "CYAN" then Some(CYAN)
    else if s == "WHITE" then Some(WHITE)
    else None
  }

  /** Every member's value is its own key name, so a key is itself a valid enum value. */
  lemma KeyIsValue(t: ThemeColor)
    ensures ValueOf(t) == KeyOf(t)
    ensures FromValue(KeyOf(t)) == Some(t)
  {
  }

  lemma KeysAreValues()
    ensures forall t :: FromValue(KeyOf(t)) == Some(t)
  {
    forall t ensures FromValue(KeyOf(t)) == Some(t) {
      KeyIsValue(t);
    }
  }

  /** The declaration order lists every member exactly once. */
  lemma MembersEnumerated()
    ensures |Members| == 4
    ensures forall t :: t in Members
    ensures forall i, j :: 0 <= i < j < |Members| ==> Members[i] != Members[j]
  {
    forall t ensures t in Members {
      match t
      case AMBER => assert Members[0] == t;
      case GREEN => assert Members[1] == t;
      case CYAN => assert Members[2] == t;
      case WHITE => assert Members[3] == t;
    }
  }

  lemma ObjectKeysInOrder()
    ensures ObjectKeys() == ["AMBER", "GREEN", "CYAN", "WHITE"]
  {
  }

  lemma PrototypeKeysHaveLowerCase()
    ensures forall k :: k in PrototypeKeys ==> HasAsciiLower(k)
  {
    forall k | k in PrototypeKeys ensures HasAsciiLower(k) {
      assert IsAsciiLower(k[if k[0] == '_' then 2 else 0]);
    }
  }

  /** For an upper-cased string the `in ThemeColor` test accepts exactly the four member
      keys: every inherited property name holds a lower-case letter. */
  lemma UpperCaseHasPropertyIffKey(s: string)
    ensures HasProperty(ToUpper(s)) <==> exists t :: KeyOf(t) == ToUpper(s)
  {
    var u := ToUpper(s);
    PrototypeKeysHaveLowerCase();
    assert !HasAsciiLower(u);
    if u in ObjectKeys() {
      var i :| 0 <= i < |ObjectKeys()| && ObjectKeys()[i] == u;
      assert KeyOf(Members[i]) == u;
    }
    if exists t :: KeyOf(t) == u {
      var t :| KeyOf(t) == u;
      MembersEnumerated();
      assert t in Members;
      var i :| 0 <= i < |Members| && Members[i] == t;
      assert ObjectKeys()[i] == u;
    }
  }

  /** One THEMES entry: the colour and the Tailwind class strings derived from it. */
  datatype ThemeStyle = ThemeStyle(
    hex: string,
    text: string,
    glow: string,
    border: string,
    bg: string,
    selection: string,
    cursor: string)

  /** The `rgba(r,g,b,` opening of a shadow colour, the alpha following it. */
  function Rgba(r: string, g: string, b: string): string {
    "rgba(" + r + "," + g + "," + b + ","
  }

  /** The THEMES object literal, entry by entry. */
  function Entry(t: ThemeColor): ThemeStyle {
    match t
    case AMBER => ThemeStyle(
      "#ffb000",
      "text-[" + "#ffb000" + "] [text-shadow:0_0_4px_" + Rgba("255", "176", "0") + "0.6),0_0_12px_" + Rgba("255", "176", "0") + "0.4)]",
      "drop-shadow-[0_0_15px_" + Rgba("255", "176", "0") + "0.6)] drop-shadow-[0_0_35px_" + Rgba("255", "176", "0") + "0.4)]",
      "border-[" + "#ffb000" + "]",
      "bg-[" + "#ffb000" + "]",
      "selection:bg-[" + "#ffb000" + "] selection:text-black",
      "bg-[" + "#ffb000" + "] shadow-[0_0_10px_" + "#ffb000" + "]")
    case GREEN => ThemeStyle(
      "#33ff00",
      "text-[" + "#33ff00" + "] [text-shadow:0_0_4px_" + Rgba("51", "255", "0") + "0.6),0_0_12px_" + Rgba("51", "255", "0") + "0.4)]",
      "drop-shadow-[0_0_15px_" + Rgba("51", "255", "0") + "0.6)] drop-shadow-[0_0_35px_" + Rgba("51", "255", "0") + "0.4)]",
      "border-[" + "#33ff00" + "]",
      "bg-[" + "#33ff00" + "]",
      "selection:bg-[" + "#33ff00" + "] selection:text-black",
      "bg-[" + "#33ff00" + "] shadow-[0_0_10px_" + "#33ff00" + "]")
    case CYAN => ThemeStyle(
      "#00ffff",
      "text-[" + "#00ffff" + "] [text-shadow:0_0_4px_" + Rgba("0", "255", "255") + "0.6),0_0_12px_" + Rgba("0", "255", "255") + "0.4)]",
      "drop-shadow-[0_0_15px_" + Rgba("0", "255", "255") + "0.6)] drop-shadow-[0_0_35px_" + Rgba("0", "255", "255") + "0.4)]",
      "border-[" + "#00ffff" + "]",
      "bg-[" + "#00ffff" + "]",
      "selection:bg-[" + "#00ffff" + "] selection:text-black",
      "bg-[" + "#00ffff" + "] shadow-[0_0_10px_" + "#00ffff" + "]")
    case WHITE => ThemeStyle(
      "#ffffff",
      "text-[" + "#ffffff" + "] [text-shadow:0_0_4px_" + Rgba("255", "255", "255") + "0.6),0_0_12px_" + Rgba("255", "255", "255") + "0.4)]",
      "drop-shadow-[0_0_15px_" + Rgba("255", "255", "255") + "0.6)] drop-shadow-[0_0_35px_" + Rgba("255", "255", "255") + "0.4)]",
      "border-[" + "#ffffff" + "]",
      "bg-[" + "#ffffff" + "]",
      "selection:bg-[" + "#ffffff" + "] selection:text-black",
      "bg-[" + "#ffffff" + "] shadow-[0_0_10px_" + "#ffffff" + "]")
  }

  /** THEMES: one entry per enum member. */
  const THEMES: map<ThemeColor, ThemeStyle> := map t | t in Members :: Entry(t)

  /** THEMES has exactly one entry per enum member: the one its literal gives it. */
  lemma ThemesComplete()
    ensures forall t :: t in THEMES && THEMES[t] == Entry(t)
    ensures |THEMES| == |Members|
  {
    MembersEnumerated();
    assert THEMES.Keys == {AMBER, GREEN, CYAN, WHITE};
  }

  /** THEMES[t]. */
  function Style(t: ThemeColor): (s: ThemeStyle)
    ensures s == Entry(t)
  {
    ThemesComplete();
    THEMES[t]
  }

  predicate IsLowerHexDigit(c: char) {
    ('0' <= c <= '9') || ('a' <= c <= 'f')
  }

  /** `#` followed by six lower-case hexadecimal digits. */
  predicate IsHexColor(s: string) {
    |s| == 7 && s[0] == '#' && forall k :: 1 <= k < 7 ==> IsLowerHexDigit(s[k])
  }

  lemma ThemeHexWellFormed(t: ThemeColor)
    ensures IsHexColor(Entry(t).hex)
  {
  }

  /** The `rgba(r,g,b,` opening each entry writes in its shadows. */
  function ShadowRgba(t: ThemeColor): string {
    match t
    case AMBER => Rgba("255", "176", "0")
    case GREEN => Rgba("51", "255", "0")
    case CYAN => Rgba("0", "255", "255")
    case WHITE => Rgba("255", "255", "255")
  }

  lemma TextEmbedsHex(t: ThemeColor)
    ensures OccursAt(Entry(t).text, Entry(t).hex, 6)
  {
    var e := Entry(t);
    var rgba := ShadowRgba(t);
    var head := "text-[" + e.hex;
    OccursAtEnd("text-[", e.hex);
    OccursAtExtend(head, e.hex, 6, "] [text-shadow:0_0_4px_");
    OccursAtExtend(head + "] [text-shadow:0_0_4px_", e.hex, 6, rgba);
    OccursAtExtend(head + "] [text-shadow:0_0_4px_" + rgba, e.hex, 6, "0.6),0_0_12px_");
    OccursAtExtend(head + "] [text-shadow:0_0_4px_" + rgba + "0.6),0_0_12px_", e.hex, 6, rgba);
    OccursAtExtend(head + "] [text-shadow:0_0_4px_" + rgba + "0.6),0_0_12px_" + rgba, e.hex, 6, "0.4)]");
    assert e.text == head + "] [text-shadow:0_0_4px_" + rgba + "0.6),0_0_12px_" + rgba + "0.4)]";
  }

  lemma BorderEmbedsHex(t: ThemeColor)
    ensures OccursAt(Entry(t).border, Entry(t).hex, 8)
  {
    match t {
      case AMBER =>
      case GREEN =>
      case CYAN =>
      case WHITE =>
    }
  }

  lemma BgEmbedsHex(t: ThemeColor)
    ensures OccursAt(Entry(t).bg, Entry(t).hex, 4)
  {
    match t {
      case AMBER =>
      case GREEN =>
      case CYAN =>
      case WHITE =>
    }
  }

  lemma SelectionEmbedsHex(t: ThemeColor)
    ensures OccursAt(Entry(t).selection, Entry(t).hex, 14)
  {
    match t {
      case AMBER =>
      case GREEN =>
      case CYAN =>
      case WHITE =>
    }
  }

  lemma CursorEmbedsHex(t: ThemeColor)
    ensures OccursAt(Entry(t).cursor, Entry(t).hex, 4)
  {
    match t {
      case AMBER =>
      case GREEN =>
      case CYAN =>
      case WHITE =>
    }
  }

  /** Every class string that names a colour names the entry's own `hex`. */
  lemma ThemeClassesEmbedHex(t: ThemeColor)
    ensures Contains(Style(t).text, Style(t).hex)
    ensures Contains(Style(t).border, Style(t).hex)
    ensures Contains(Style(t).bg, Style(t).hex)
    ensures Contains(Style(t).selection, Style(t).hex)
    ensures Contains(Style(t).cursor, Style(t).hex)
  {
    TextEmbedsHex(t);
    BorderEmbedsHex(t);
    BgEmbedsHex(t);
    SelectionEmbedsHex(t);
    CursorEmbedsHex(t);
  }
}
