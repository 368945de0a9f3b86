/**
 * The two console decisions of the personal finance categorizer: the
 * system-prompt menu (`choose_prompt`) and the quit / blank handling of each
 * query read by `main`.  Console I/O is modelled as a sequence of input
 * lines; running out of lines is where Python's `input()` would raise
 * `EOFError`.
 */
module Categorizer {
  import opened Wrappers

  // ---------------------------------------------------------------------
  // The prompt menu
  // ---------------------------------------------------------------------

  /** The keys of `PROMPTS`, in the dictionary's insertion order. */
  const PromptKeys: seq<string> := ["basic", "with_categories", "adaptive"]

  const DefaultPromptKey: string := "basic"

  /** Position of `key` in `keys`, as Python's `list.index`. */
  function IndexOf(keys: seq<string>, key: string): (i: nat)
    requires key in keys
    ensures i < |keys| && keys[i] == key
    ensures forall j :: 0 <= j < i ==> keys[j] != key
  {
    if keys[0] == key then 0 else 1 + IndexOf(keys[1..], key)
  }

  /** The menu number shown as the default choice (`default_num`). */
  function DefaultMenuNumber(): (n: nat)
    ensures 1 <= n <= |PromptKeys| && PromptKeys[n - 1] == DefaultPromptKey
  {
    IndexOf(PromptKeys, DefaultPromptKey) + 1
  }

  /** The three prompts are distinct, and the default is the first, so `[1]` is the default entry. */
  lemma MenuLayout()
    ensures forall i, j :: 0 <= i < j < |PromptKeys| ==> PromptKeys[i] != PromptKeys[j]
    ensures DefaultMenuNumber() == 1
  {
    assert PromptKeys[0] == DefaultPromptKey;
  }

  // ---------------------------------------------------------------------
  // Python's str.strip() and int()
  // ---------------------------------------------------------------------

  /** The characters for which Python's `str.isspace` holds; `str.strip()` removes exactly these. */
  predicate IsSpace(c: char)
  {
    c == ' ' || ('\t' <= c <= '\r') || ('\U{1C}' <= c <= '\U{1F}')
    || c == '\U{85}' || c == '\U{A0}' || c == '\U{1680}'
    || ('\U{2000}' <= c <= '\U{200A}') || c == '\U{2028}' || c == '\U{2029}'
    || c == '\U{202F}' || c == '\U{205F}' || c == '\U{3000}'
  }

  predicate AllSpace(s: string)
  {
    forall k :: 0 <= k < |s| ==> IsSpace(s[k])
  }

  /** `s.lstrip()`. */
  function TrimStart(s: string): (r: string)
    ensures |r| <= |s|
  {
    if s != [] && IsSpace(s[0]) then TrimStart(s[1..]) else s
  }

  /** `lstrip()` removes exactly the leading whitespace: what remains is a suffix that starts with a non-space. */
  lemma {:induction false} TrimStartSpec(s: string)
    ensures var r := TrimStart(s);
            r == s[|s| - |r|..] && AllSpace(s[..|s| - |r|]) && (r == [] || !IsSpace(r[0]))
  {
    if s != [] && IsSpace(s[0]) {
      TrimStartSpec(s[1..]);
      var r := TrimStart(s);
      assert s[1..][|s| - 1 - |r|..] == s[|s| - |r|..];
      assert forall k :: 1 <= k < |s| - |r| ==> s[k] == s[1..][..|s| - 1 - |r|][k - 1];
    }
  }

  /** `s.rstrip()`. */
  function TrimEnd(s: string): (r: string)
    ensures |r| <= |s|
  {
    if s != [] && IsSpace(s[|s| - 1]) then TrimEnd(s[..|s| - 1]) else s
  }

  /** `rstrip()` removes exactly the trailing whitespace: what remains is a prefix that ends with a non-space. */
  lemma {:induction false} TrimEndSpec(s: string)
    ensures var r := TrimEnd(s);
            r == s[..|r|] && AllSpace(s[|r|..]) && (r == [] || !IsSpace(r[|r| - 1]))
  {
    if s != [] && IsSpace(s[|s| - 1]) {
      TrimEndSpec(s[..|s| - 1]);
      var r := TrimEnd(s);
      assert s[..|s| - 1][..|r|] == s[..|r|];
      assert forall k :: |r| <= k < |s| - 1 ==> s[k] == s[..|s| - 1][|r|..][k - |r|];
    }
  }

  /** `s.strip()`. */
  function Strip(s: string): string
  {
    TrimEnd(TrimStart(s))
  }

  /** Neither end of a stripped string is whitespace. */
  lemma StripEnds(s: string)
    ensures Strip(s) == [] || (!IsSpace(Strip(s)[0]) && !IsSpace(Strip(s)[|Strip(s)| - 1]))
  {
    var t := TrimStart(s);
    TrimStartSpec(s);
    TrimEndSpec(t);
    if Strip(s) != [] {
      assert Strip(s)[0] == t[0];
    }
  }

  /** A string strips to nothing exactly when every character of it is whitespace. */
  lemma StripEmptyIffAllSpace(s: string)
    ensures Strip(s) == [] <==> AllSpace(s)
  {
    var t := TrimStart(s);
    TrimStartSpec(s);
    TrimEndSpec(t);
    if t != [] {
      assert t[0] == s[|s| - |t|];
    }
    if AllSpace(s) {
      assert t == [];
    }
  }

  /** Stripping twice is stripping once. */
  lemma StripIdempotent(s: string)
    ensures Strip(Strip(s)) == Strip(s)
  {
    var r := Strip(s);
    StripEnds(s);
    if r != [] {
      assert TrimStart(r) == r;
      assert TrimEnd(r) == r;
    }
  }

  predicate IsDigit(c: char)
  {
    '0' <= c <= '9'
  }

  predicate AllDigits(s: string)
  {
    forall k :: 0 <= k < |s| ==> IsDigit(s[k])
  }

  /** The value of a string of decimal digits, most significant first. */
  function DigitsValue(s: string): (n: nat)
    requires AllDigits(s)
  {
    if s == [] then 0 else 10 * DigitsValue(s[..|s| - 1]) + (s[|s| - 1] as int - '0' as int)
  }

  /**
   * CPython's default limit on the digits of an integer string
   * (`sys.get_int_max_str_digits()`); leading zeros count.
   */
  const MaxStrDigits := 4300

  /**
   * Python's `int(raw)` on a string that is already stripped: an optional
   * `+` or `-` followed by at least one and at most `MaxStrDigits` ASCII
   * digits; anything else raises `ValueError`, modelled as `None`.
   */
  function ParseInt(s: string): (r: Option<int>)
    ensures r.Some? ==> s != [] && IsDigit(s[|s| - 1])
    ensures r.Some? ==> (if s[0] == '+' || s[0] == '-' then |s| - 1 else |s|) <= MaxStrDigits
  {
    if s != [] && (s[0] == '+' || s[0] == '-') then
      var digits := s[1..];
      if digits != [] && AllDigits(digits) && |digits| <= MaxStrDigits then
        var v: int := DigitsValue(digits);
        Some(if s[0] == '-' then -v else v)
      else None
    else if s != [] && AllDigits(s) && |s| <= MaxStrDigits then Some(DigitsValue(s))
    else None
  }

  /** The decimal numeral of `n`; the partner of `ParseInt`. */
  function DecimalString(n: nat): (s: string)
    ensures s != [] && AllDigits(s)
  {
    var last := ['0' + ((n % 10) as char)];
    if n < 10 then last else DecimalString(n / 10) + last
  }

  lemma {:induction false} DigitsValueOfDecimal(n: nat)
    ensures DigitsValue(DecimalString(n)) == n
  {
    var s := DecimalString(n);
    if n >= 10 {
      var p := DecimalString(n / 10);
      assert s[..|s| - 1] == p;
      DigitsValueOfDecimal(n / 10);
    }
  }

  /**
   * `int` reads back the numeral of every integer, signed or not, up to the
   * digit limit, and refuses every numeral longer than that.
   */
  lemma ParseIntRoundTrip(n: nat)
    ensures |DecimalString(n)| <= MaxStrDigits ==> ParseInt(DecimalString(n)) == Some(n)
    ensures |DecimalString(n)| <= MaxStrDigits ==> ParseInt("+" + DecimalString(n)) == Some(n)
    ensures |DecimalString(n)| <= MaxStrDigits ==> ParseInt("-" + DecimalString(n)) == Some(-(n as int))
    ensures |DecimalString(n)| > MaxStrDigits ==>
              ParseInt(DecimalString(n)) == ParseInt("+" + DecimalString(n)) == ParseInt("-" + DecimalString(n)) == None
  {
    DigitsValueOfDecimal(n);
    assert ("+" + DecimalString(n))[1..] == DecimalString(n);
    assert ("-" + DecimalString(n))[1..] == DecimalString(n);
  }

  // ---------------------------------------------------------------------
  // choose_prompt
  // ---------------------------------------------------------------------

  datatype Choice = Selected(key: string) | Rejected

  /**
   * One pass of the `choose_prompt` loop on one input line: after
   * stripping, an empty line selects the default, a prompt name selects
   * itself, and a number from 1 to the number of prompts selects that menu
   * entry; anything else is rejected and the menu asks again.
   */
  function ResolveChoice(line: string): (c: Choice)
    ensures c.Selected? ==> c.key in PromptKeys
  {
    ResolveStripped(Strip(line))
  }

  /** The decision `choose_prompt` makes on the stripped line `raw`. */
  function ResolveStripped(raw: string): (c: Choice)
    ensures c.Selected? ==> c.key in PromptKeys
  {
    if raw == [] then Selected(DefaultPromptKey)
    else if raw in PromptKeys then Selected(raw)
    else match ParseInt(raw)
      case Some(idx) =>
        if 1 <= idx <= |PromptKeys| then Selected(PromptKeys[idx - 1]) else Rejected
      case None => Rejected
  }

  /** A line of whitespace only (or an empty line) selects the default prompt. */
  lemma BlankSelectsDefault(line: string)
    requires AllSpace(line)
    ensures ResolveChoice(line) == Selected(DefaultPromptKey)
  {
    StripEmptyIffAllSpace(line);
  }

  /** A prompt name, with any whitespace around it, selects that prompt. */
  lemma NameSelectsItself(pre: string, key: string, post: string)
    requires AllSpace(pre) && AllSpace(post) && key in PromptKeys
    ensures ResolveChoice(pre + key + post) == Selected(key)
  {
    StripPadded(pre, key, post);
  }

  /**
   * A line that is neither blank, nor a prompt name, nor a numeral `int`
   * accepts once stripped is rejected, and the menu asks again.
   */
  lemma GarbageRejected(line: string)
    requires !AllSpace(line) && Strip(line) !in PromptKeys && ParseInt(Strip(line)).None?
    ensures ResolveChoice(line) == Rejected
  {
    StripEmptyIffAllSpace(line);
  }

  /** Menu number `i` (in any of the forms `int` accepts, padded with whitespace) selects the i-th prompt. */
  lemma MenuNumberSelects(pre: string, sign: string, i: nat, post: string)
    requires AllSpace(pre) && AllSpace(post) && sign in ["", "+"]
    requires 1 <= i <= |PromptKeys|
    ensures ResolveChoice(pre + sign + DecimalString(i) + post) == Selected(PromptKeys[i - 1])
  {
    SignedNumeral(pre, sign, i, post);
  }

  /** A number outside the menu, padded with whitespace, is rejected, however it is signed. */
  lemma OutOfRangeRejected(pre: string, sign: string, n: nat, post: string)
    requires AllSpace(pre) && AllSpace(post) && sign in ["", "+", "-"]
    requires (sign == "-" && n != 0) || n == 0 || n > |PromptKeys|
    ensures ResolveChoice(pre + sign + DecimalString(n) + post) == Rejected
  {
    SignedNumeral(pre, sign, n, post);
  }

  /**
   * A padded, optionally signed numeral within the digit limit is resolved
   * by its value; a longer one is rejected.
   */
  lemma SignedNumeral(pre: string, sign: string, n: nat, post: string)
    requires AllSpace(pre) && AllSpace(post) && sign in ["", "+", "-"]
    ensures var v: int := if sign == "-" then -(n as int) else n;
            ResolveChoice(pre + sign + DecimalString(n) + post)
            == if |DecimalString(n)| <= MaxStrDigits && 1 <= v <= |PromptKeys| then Selected(PromptKeys[v - 1]) else Rejected
  {
    var v: int := if sign == "-" then -(n as int) else n;
    PaddedNumeralStrips(pre, sign, n, post);
    if |DecimalString(n)| <= MaxStrDigits {
      SignedNumeralValue(sign, n);
      ResolveNumeral(pre + sign + DecimalString(n) + post, sign + DecimalString(n), v);
    } else {
      OverlongNumeralRejected(pre + sign + DecimalString(n) + post, sign, DecimalString(n));
    }
  }

  lemma PaddedNumeralStrips(pre: string, sign: string, n: nat, post: string)
    requires AllSpace(pre) && AllSpace(post) && sign in ["", "+", "-"]
    ensures Strip(pre + sign + DecimalString(n) + post) == sign + DecimalString(n)
  {
    var raw := sign + DecimalString(n);
    assert pre + sign + DecimalString(n) + post == pre + raw + post;
    NumeralEnds(sign, n);
    StripPadded(pre, raw, post);
  }

  /** A signed numeral starts with its sign or a digit and ends with a digit, so neither end is whitespace. */
  lemma NumeralEnds(sign: string, n: nat)
    requires sign in ["", "+", "-"]
    ensures var raw := sign + DecimalString(n);
            raw != [] && !IsSpace(raw[0]) && !IsSpace(raw[|raw| - 1])
  {
    var d := DecimalString(n);
    var raw := sign + d;
    assert IsDigit(d[0]) && IsDigit(d[|d| - 1]);
    assert raw[|raw| - 1] == d[|d| - 1];
    if sign == "" {
      assert raw[0] == d[0];
    } else {
      assert raw[0] == sign[0];
    }
  }

  lemma SignedNumeralValue(sign: string, n: nat)
    requires sign in ["", "+", "-"] && |DecimalString(n)| <= MaxStrDigits
    ensures ParseInt(sign + DecimalString(n)) == Some(if sign == "-" then -(n as int) else n)
  {
    ParseIntRoundTrip(n);
    if sign == "" {
      assert sign + DecimalString(n) == DecimalString(n);
    }
  }

  /** A line that strips to a numeral is resolved by its value alone. */
  lemma ResolveNumeral(line: string, raw: string, idx: int)
    requires Strip(line) == raw && raw != [] && ParseInt(raw) == Some(idx)
    ensures ResolveChoice(line) == if 1 <= idx <= |PromptKeys| then Selected(PromptKeys[idx - 1]) else Rejected
  {
    NumeralNotAName(raw);
  }

  /**
   * A line that strips to a signed run of more than `MaxStrDigits` digits
   * (leading zeros included) is rejected: `int` raises `ValueError` on it.
   */
  lemma OverlongNumeralRejected(line: string, sign: string, digits: string)
    requires sign in ["", "+", "-"] && AllDigits(digits) && |digits| > MaxStrDigits
    requires Strip(line) == sign + digits
    ensures ResolveChoice(line) == Rejected
  {
    var raw := sign + digits;
    assert raw[|raw| - 1] == digits[|digits| - 1];
    NumeralNotAName(raw);
    if sign == "" {
      assert raw == digits;
    } else {
      assert raw[1..] == digits;
    }
  }

  lemma NumeralNotAName(raw: string)
    requires raw != [] && IsDigit(raw[|raw| - 1])
    ensures raw !in PromptKeys
  {
  }

  /** Stripping whitespace padding from a word that has none at its ends. */
  lemma StripPadded(pre: string, word: string, post: string)
    requires AllSpace(pre) && AllSpace(post)
    requires word != [] && !IsSpace(word[0]) && !IsSpace(word[|word| - 1])
    ensures Strip(pre + word + post) == word
  {
    var s := pre + word + post;
    TrimStartPadded(pre, word + post);
    assert pre + (word + post) == s;
    TrimEndPadded(word, post);
  }

  lemma {:induction false} TrimStartPadded(pre: string, rest: string)
    requires AllSpace(pre) && rest != [] && !IsSpace(rest[0])
    ensures TrimStart(pre + rest) == rest
  {
    if pre != [] {
      assert (pre + rest)[1..] == pre[1..] + rest;
      TrimStartPadded(pre[1..], rest);
    }
  }

  lemma {:induction false} TrimEndPadded(rest: string, post: string)
    requires AllSpace(post) && rest != [] && !IsSpace(rest[|rest| - 1])
    ensures TrimEnd(rest + post) == rest
  {
    if post != [] {
      assert (rest + post)[..|rest + post| - 1] == rest + post[..|post| - 1];
      TrimEndPadded(rest, post[..|post| - 1]);
    } else {
      assert rest + post == rest;
    }
  }

  /**
   * `choose_prompt`: reads lines until one resolves to a prompt.  Returns
   * the chosen key and how many lines were read; `None` when the input ends
   * first (Python's `input()` would raise `EOFError` there).
   */
  method ChoosePrompt(lines: seq<string>) returns (choice: Option<string>, consumed: nat)
    ensures consumed <= |lines|
    ensures choice.None? ==> consumed == |lines| && forall i :: 0 <= i < |lines| ==> ResolveChoice(lines[i]).Rejected?
    ensures choice.Some? ==> 1 <= consumed && ResolveChoice(lines[consumed - 1]) == Selected(choice.value)
                             && forall i :: 0 <= i < consumed - 1 ==> ResolveChoice(lines[i]).Rejected?
    ensures choice.Some? ==> choice.value in PromptKeys
  {
    consumed := 0;
    while consumed < |lines|
      invariant consumed <= |lines|
      invariant forall i :: 0 <= i < consumed ==> ResolveChoice(lines[i]).Rejected?
    {
      var c := ResolveChoice(lines[consumed]);
      consumed := consumed + 1;
      if c.Selected? {
        return Some(c.key), consumed;
      }
    }
    choice := None;
  }

  // ---------------------------------------------------------------------
  // The query loop of main
  // ---------------------------------------------------------------------

  function LowerChar(c: char): char
  {
    if 'A' <= c <= 'Z' then (c as int + 32) as char else c
  }

  /**
   * `s.lower()` on ASCII letters: the result has no capital left, each
   * capital becomes its small letter, and every other character is kept.
   */
  function Lower(s: string): (r: string)
    ensures |r| == |s|
    ensures forall k :: 0 <= k < |r| ==> !('A' <= r[k] <= 'Z')
    ensures forall k :: 0 <= k < |s| && !('A' <= s[k] <= 'Z') ==> r[k] == s[k]
    ensures forall k :: 0 <= k < |s| && 'A' <= s[k] <= 'Z' ==> 'a' <= r[k] <= 'z' && r[k] as int - 32 == s[k] as int
  {
    seq(|s|, k requires 0 <= k < |s| => LowerChar(s[k]))
  }

  /** Lowering is idempotent. */
  lemma LowerIdempotent(s: string)
    ensures Lower(Lower(s)) == Lower(s)
  {
  }

  /** The words that end the session. */
  const QuitWords := ["quit", "exit", "q"]

  /** A query that ends the session: `quit`, `exit` or `q` in any letter case, with nothing around it. */
  predicate IsQuit(query: string)
  {
    Lower(query) in QuitWords
  }

  /** `q` spells `w` with any of its letters written as capitals. */
  predicate SpellsIgnoringCase(q: string, w: string)
  {
    |q| == |w| && forall k :: 0 <= k < |q| ==> q[k] == w[k] || q[k] as int == w[k] as int - 32
  }

  /** The quit test ignores letter case and nothing else: `QUIT`, `Exit` and `q` end the session. */
  lemma QuitIgnoresCase(q: string)
    ensures IsQuit(q) <==> exists w :: w in QuitWords && SpellsIgnoringCase(q, w)
  {
    assert forall w, k :: w in QuitWords && 0 <= k < |w| ==> 'a' <= w[k] <= 'z';
    if IsQuit(q) {
      var w := Lower(q);
      assert SpellsIgnoringCase(q, w);
    } else {
      forall w | w in QuitWords && SpellsIgnoringCase(q, w)
        ensures Lower(q) == w
      {
      }
    }
  }

  datatype QueryAction = Quit | Skip | Send(query: string)

  /**
   * What `main` does with one line: the quit test comes first and is made
   * on the unstripped line, then a whitespace-only line is skipped, and
   * any other line is sent to the agent exactly as typed.
   */
  function Classify(query: string): QueryAction
  {
    if IsQuit(query) then Quit
    else if Strip(query) == [] then Skip
    else Send(query)
  }

  /** The three outcomes of `Classify`, stated without `strip`. */
  lemma ClassifyCases(query: string)
    ensures Classify(query).Quit? <==> IsQuit(query)
    ensures Classify(query).Skip? <==> !IsQuit(query) && AllSpace(query)
    ensures Classify(query).Send? <==> !IsQuit(query) && !AllSpace(query)
    ensures Classify(query).Send? ==> Classify(query).query == query
  {
    StripEmptyIffAllSpace(query);
  }

  /** A quit word is never blank, so the quit test and the blank test never compete. */
  lemma QuitIsNotBlank(query: string)
    requires IsQuit(query)
    ensures !AllSpace(query)
    ensures !IsSpace(query[0]) && !IsSpace(query[|query| - 1])
  {
    var l := Lower(query);
    assert LowerChar(query[0]) == l[0];
    assert LowerChar(query[|query| - 1]) == l[|l| - 1];
  }

  /** The quit test is not whitespace-tolerant: a padded quit word is sent to the agent. */
  lemma PaddedQuitIsSent(pre: string, word: string, post: string)
    requires word in QuitWords
    requires AllSpace(pre) && AllSpace(post) && pre + post != []
    ensures Classify(pre + word + post) == Send(pre + word + post)
  {
    var s := pre + word + post;
    assert !AllSpace(s) by {
      assert s[|pre|] == word[0];
    }
    if IsQuit(s) {
      QuitIsNotBlank(s);
    }
    ClassifyCases(s);
  }

  datatype SessionEnd = QuitCommand | InputExhausted

  /** The queries `main` sends to the agent for the given input lines, and how the loop ends. */
  function Session(lines: seq<string>): (seq<string>, SessionEnd)
  {
    if lines == [] then ([], InputExhausted)
    else
      var rest := Session(lines[1..]);
      match Classify(lines[0])
      case Quit => ([], QuitCommand)
      case Skip => rest
      case Send(q) => ([q] + rest.0, rest.1)
  }

  /** Every query sent is an input line that is neither blank nor a quit word. */
  lemma {:induction false} SessionSendsOnlyQueries(lines: seq<string>)
    ensures forall q :: q in Session(lines).0 ==> q in lines && !AllSpace(q) && !IsQuit(q)
  {
    if lines != [] {
      SessionSendsOnlyQueries(lines[1..]);
      ClassifyCases(lines[0]);
    }
  }

  /** The session ends on a quit command exactly when some input line is a quit word. */
  lemma {:induction false} SessionEndsOnQuit(lines: seq<string>)
    ensures Session(lines).1 == QuitCommand <==> exists i :: 0 <= i < |lines| && IsQuit(lines[i])
  {
    if lines != [] {
      SessionEndsOnQuit(lines[1..]);
      ClassifyCases(lines[0]);
      assert forall i :: 0 < i < |lines| ==> lines[i] == lines[1..][i - 1];
    }
  }

  /** The lines `main` sends, in order, among lines with no quit word: every non-blank line. */
  function NonBlank(lines: seq<string>): seq<string>
  {
    if lines == [] then []
    else if AllSpace(lines[0]) then NonBlank(lines[1..])
    else [lines[0]] + NonBlank(lines[1..])
  }

  /**
   * The first quit word ends the session: everything before it that is not
   * blank has been sent, and nothing after it is read.
   */
  lemma {:induction false} FirstQuitEndsSession(lines: seq<string>, i: nat)
    requires i < |lines| && IsQuit(lines[i])
    requires forall j :: 0 <= j < i ==> !IsQuit(lines[j])
    ensures Session(lines) == (NonBlank(lines[..i]), QuitCommand)
  {
    ClassifyCases(lines[0]);
    if i > 0 {
      assert lines[1..][..i - 1] == lines[..i][1..];
      FirstQuitEndsSession(lines[1..], i - 1);
    }
  }

  /** Without a quit word the session sends every non-blank line and ends when the input does. */
  lemma {:induction false} SessionWithoutQuit(lines: seq<string>)
    requires forall j :: 0 <= j < |lines| ==> !IsQuit(lines[j])
    ensures Session(lines) == (NonBlank(lines), InputExhausted)
  {
    if lines != [] {
      ClassifyCases(lines[0]);
      SessionWithoutQuit(lines[1..]);
    }
  }

  /** The `while True` loop of `main`: reads lines until a quit word or the end of the input. */
  method RunQueries(lines: seq<string>) returns (sent: seq<string>, end: SessionEnd)
    ensures sent == Session(lines).0 && end == Session(lines).1
  {
    sent := [];
    var i := 0;
    assert lines[i..] == lines;
    while i < |lines|
      invariant i <= |lines|
      invariant Session(lines).0 == sent + Session(lines[i..]).0
      invariant Session(lines).1 == Session(lines[i..]).1
    {
      assert lines[i..][1..] == lines[i + 1..];
      var query := lines[i];
      i := i + 1;
      match Classify(query)
      case Quit =>
        return sent, QuitCommand;
      case Skip =>
      case Send(q) =>
        sent := sent + [q];
    }
    end := InputExhausted;
  }
}
