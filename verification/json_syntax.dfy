/** JSON texts (RFC 8259, sections 2 to 7) as the parser of components/controller/json.cpp reads
    them: concrete syntax trees, what they look like, and the token array that stands for one. */
module JsonSyntax {
  const NUL: char := 0 as char
  const MAX_DEPTH := 12
  const MAX_TOKENS := 512
  const MAX_TEXT := 16384

  predicate IsSpace(c: char) { c == ' ' || c == '\n' || c == '\r' || c == '\t' }

  predicate IsDigit(c: char) { '0' <= c <= '9' }

  predicate IsHex(c: char) { IsDigit(c) || 'a' <= c <= 'f' || 'A' <= c <= 'F' }

  predicate SpaceAt(w: string, i: nat)
    requires i < |w|
  {
    IsSpace(w[i])
  }

  /** Kept behind `SpaceAt` so that single characters are looked at only where a proof says so. */
  predicate Space(w: string) { forall i: nat {:trigger SpaceAt(w, i)} | i < |w| :: SpaceAt(w, i) }

  predicate Digits(w: string) { |w| > 0 && forall i | 0 <= i < |w| :: IsDigit(w[i]) }

  predicate IsSimpleEscape(c: char) {
    c == '\"' || c == '\\' || c == '/' || c == 'b' || c == 'f' || c == 'n' || c == 'r' || c == 't'
  }

  /** What may follow a backslash, other than `u`. The parser looks the character up with `strchr`,
      which also finds the terminating NUL of its list. */
  predicate IsEscape(c: char) { IsSimpleEscape(c) || c == NUL }

  /** The text between the quotes of a string. */
  predicate Body(raw: string) {
    if raw == "" then true
    else if raw[0] == '\\' then
      if |raw| < 2 then false
      else if raw[1] == 'u' then
        |raw| >= 6 && IsHex(raw[2]) && IsHex(raw[3]) && IsHex(raw[4]) && IsHex(raw[5]) && Body(raw[6..])
      else IsEscape(raw[1]) && Body(raw[2..])
    else raw[0] >= ' ' && raw[0] != '\"' && Body(raw[1..])
  }

  datatype Fraction = Whole | Point(digits: string)
  {
    function Text(): string { if Whole? then "" else "." + digits }

    predicate Valid() { Point? ==> Digits(digits) }
  }

  datatype Exponent = NoExponent | Power(marker: char, sign: string, digits: string)
  {
    function Text(): string { if NoExponent? then "" else [marker] + sign + digits }

    predicate Valid() {
      Power? ==>
        && (marker == 'e' || marker == 'E') && (sign == "" || sign == "+" || sign == "-") && Digits(digits)
    }
  }

  datatype Numeral = Numeral(minus: bool, whole: string, fraction: Fraction, exponent: Exponent)
  {
    function Sign(): string { if minus then "-" else "" }

    function Text(): string { Sign() + whole + fraction.Text() + exponent.Text() }

    predicate Valid() {
      && Digits(whole) && (whole[0] == '0' ==> |whole| == 1) && fraction.Valid() && exponent.Valid()
    }
  }

  datatype Word = True | False | Null

  function Spelling(w: Word): string {
    match w case True => "true" case False => "false" case Null => "null"
  }

  /** A value with all its white space: `lead` follows the opening bracket; the first entry has none of
      its own before it. Lists grow at their end, as the parser meets them. */
  datatype Tree =
    | Obj(lead: string, members: Members)
    | Arr(lead: string, items: Items)
    | Str(raw: string)
    | Num(num: Numeral)
    | Lit(word: Word)

  datatype Members =
    | NoMembers
    | Member(init: Members, gap: string, key: string, beforeColon: string, afterColon: string, val: Tree, after: string)

  datatype Items =
    | NoItems
    | Item(init: Items, gap: string, val: Tree, after: string)

  function Render(t: Tree): string {
    match t
    case Obj(lead, ms) => "{" + lead + RenderMembers(ms) + "}"
    case Arr(lead, xs) => "[" + lead + RenderItems(xs) + "]"
    case Str(raw) => "\"" + raw + "\""
    case Num(n) => n.Text()
    case Lit(w) => Spelling(w)
  }

  function RenderMembers(ms: Members): string {
    match ms
    case NoMembers => ""
    case Member(init, gap, key, beforeColon, afterColon, val, after) =>
      RenderMembers(init) + (if init.NoMembers? then "" else ",") + gap + "\"" + key + "\"" + beforeColon + ":" +
      afterColon + Render(val) + after
  }

  function RenderItems(xs: Items): string {
    match xs
    case NoItems => ""
    case Item(init, gap, val, after) =>
      RenderItems(init) + (if init.NoItems? then "" else ",") + gap + Render(val) + after
  }

  predicate HasKey(ms: Members, key: string) {
    ms.Member? && (ms.key == key || HasKey(ms.init, key))
  }

  /** The grammar, with keys free of escapes and unique in their object. */
  predicate Grammar(t: Tree) {
    match t
    case Obj(lead, ms) => Space(lead) && GrammarMembers(ms)
    case Arr(lead, xs) => Space(lead) && GrammarItems(xs)
    case Str(raw) => Body(raw)
    case Num(n) => n.Valid()
    case Lit(_) => true
  }

  predicate GrammarMembers(ms: Members) {
    match ms
    case NoMembers => true
    case Member(init, gap, key, beforeColon, afterColon, val, after) =>
      && GrammarMembers(init) && Space(gap) && (init.NoMembers? ==> gap == "")
      && Body(key) && '\\' !in key && !HasKey(init, key)
      && Space(beforeColon) && Space(afterColon) && Grammar(val) && Space(after)
  }

  predicate GrammarItems(xs: Items) {
    match xs
    case NoItems => true
    case Item(init, gap, val, after) =>
      && GrammarItems(init) && Space(gap) && (init.NoItems? ==> gap == "") && Grammar(val) && Space(after)
  }

  // ----- Limits -----

  predicate DepthOk(t: Tree, depth: nat) {
    && depth <= MAX_DEPTH
    && match t
       case Obj(_, ms) => DepthOkMembers(ms, depth + 1)
       case Arr(_, xs) => DepthOkItems(xs, depth + 1)
       case _ => true
  }

  predicate DepthOkMembers(ms: Members, depth: nat) {
    ms.Member? ==> depth <= MAX_DEPTH && DepthOkMembers(ms.init, depth) && DepthOk(ms.val, depth)
  }

  predicate DepthOkItems(xs: Items, depth: nat) {
    xs.Item? ==> DepthOkItems(xs.init, depth) && DepthOk(xs.val, depth)
  }

  /** Tokens a tree takes: one for each value and each key. */
  function Count(t: Tree): (n: nat)
    ensures n > 0
  {
    match t
    case Obj(_, ms) => 1 + CountMembers(ms)
    case Arr(_, xs) => 1 + CountItems(xs)
    case _ => 1
  }

  function CountMembers(ms: Members): nat {
    match ms
    case NoMembers => 0
    case Member(init, _, _, _, _, val, _) => CountMembers(init) + 1 + Count(val)
  }

  function CountItems(xs: Items): nat {
    match xs
    case NoItems => 0
    case Item(init, _, val, _) => CountItems(init) + Count(val)
  }

  // ----- Widths, and where the parts stand -----

  function Width(t: Tree): nat {
    match t
    case Obj(lead, ms) => 2 + |lead| + WidthMembers(ms)
    case Arr(lead, xs) => 2 + |lead| + WidthItems(xs)
    case Str(raw) => 2 + |raw|
    case Num(n) => |n.Sign()| + |n.whole| + |n.fraction.Text()| + |n.exponent.Text()|
    case Lit(w) => |Spelling(w)|
  }

  function WidthMembers(ms: Members): nat {
    match ms
    case NoMembers => 0
    case Member(init, gap, key, beforeColon, afterColon, val, after) =>
      WidthMembers(init) + (if init.NoMembers? then 0 else 1) + |gap| + 2 + |key| + |beforeColon| + 1 +
      |afterColon| + Width(val) + |after|
  }

  function WidthItems(xs: Items): nat {
    match xs
    case NoItems => 0
    case Item(init, gap, val, after) =>
      WidthItems(init) + (if init.NoItems? then 0 else 1) + |gap| + Width(val) + |after|
  }

  /** Where the last key of a list that starts at `start` has its opening quote, ... */
  function KeyAt(ms: Members, start: nat): nat
    requires ms.Member?
  {
    start + WidthMembers(ms.init) + (if ms.init.NoMembers? then 0 else 1) + |ms.gap|
  }

  /** ... its colon, ... */
  function ColonAt(ms: Members, start: nat): nat
    requires ms.Member?
  {
    KeyAt(ms, start) + 2 + |ms.key| + |ms.beforeColon|
  }

  /** ... and its value. */
  function ValueAt(ms: Members, start: nat): nat
    requires ms.Member?
  {
    ColonAt(ms, start) + 1 + |ms.afterColon|
  }

  function ItemAt(xs: Items, start: nat): nat
    requires xs.Item?
  {
    start + WidthItems(xs.init) + (if xs.init.NoItems? then 0 else 1) + |xs.gap|
  }

  // ----- The token array of a tree -----

  datatype Type = Object | Array | String | Number | Bool | Nothing

  datatype Token = Token(start: nat, len: nat, end: nat, kind: Type)

  function Kind(t: Tree): Type {
    match t
    case Obj(_, _) => Object
    case Arr(_, _) => Array
    case Str(_) => String
    case Num(_) => Number
    case Lit(w) => if w.Null? then Nothing else Bool
  }

  /** The token of a tree at text position `start` and index `base`: strings leave out their quotes. */
  function Head(t: Tree, start: nat, base: nat): Token {
    if t.Str? then Token(start + 1, |t.raw|, base + 1, String)
    else Token(start, Width(t), base + Count(t), Kind(t))
  }

  function Tokens(t: Tree, start: nat, base: nat): (r: seq<Token>)
    ensures |r| == Count(t)
    decreases t
  {
    [Head(t, start, base)] +
    match t
    case Obj(lead, ms) => MemberTokens(ms, start + 1 + |lead|, base + 1)
    case Arr(lead, xs) => ItemTokens(xs, start + 1 + |lead|, base + 1)
    case _ => []
  }

  function MemberTokens(ms: Members, start: nat, base: nat): (r: seq<Token>)
    ensures |r| == CountMembers(ms)
    decreases ms
  {
    if ms.NoMembers? then []
    else
      var n := base + CountMembers(ms.init);
      MemberTokens(ms.init, start, base) + [Head(Str(ms.key), KeyAt(ms, start), n)] +
      Tokens(ms.val, ValueAt(ms, start), n + 1)
  }

  function ItemTokens(xs: Items, start: nat, base: nat): (r: seq<Token>)
    ensures |r| == CountItems(xs)
    decreases xs
  {
    if xs.NoItems? then []
    else ItemTokens(xs.init, start, base) + Tokens(xs.val, ItemAt(xs, start), base + CountItems(xs.init))
  }
}
