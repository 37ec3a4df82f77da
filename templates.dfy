// Signal templates: `{name}` placeholder substitution in a rationale, the
// parsing of a template's action and price, and the template store with its
// id counter, use counts and visibility.

module Templates {
  import opened Base
  import opened RegistryTypes

  const DEFAULT_TEMPLATE_EXPIRY_HOURS: nat := 24
  const MAX_SIGNAL_RATIONALE_BYTES: nat := 500

  const LBRACE: Byte := 123
  const RBRACE: Byte := 125
  const PLUS: Byte := 43
  const MINUS: Byte := 45

  /** The key that falls back to the ledger timestamp when no variable supplies it. */
  const DATE: Text := [100, 97, 116, 101]

  datatype TemplateError =
    | TemplateNotFound
    | Unauthorized
    | PrivateTemplate
    | MissingVariable
    | InvalidTemplate
    | InvalidAction
    | InvalidExpiry

  datatype SignalTemplate = SignalTemplate(
    id: nat,
    provider: Address,
    name: Text,
    assetPair: Option<Text>,
    action: Option<Text>,
    rationaleTemplate: Text,
    defaultExpiryHours: nat,
    isPublic: bool,
    useCount: nat)

  // ---------------------------------------------------------------------------
  // Specification of `replace_variables`

  /** The decimal digits of `n`, as `u64::to_string` writes them. */
  function Decimal(n: nat): (d: Text)
    ensures 1 <= |d| && AllDigits(d) && NumeralValue(d) == n
    ensures |d| > 1 ==> d[0] != 48
  {
    if n < 10 then [48 + n]
    else
      var p := Decimal(n / 10);
      assert (p + [48 + n % 10])[..|p|] == p;
      p + [48 + n % 10]
  }

  /** The first '}' at or after `j`, or `|t|` when there is none. */
  function CloseFrom(t: Text, j: nat): (k: nat)
    requires j <= |t|
    ensures j <= k <= |t| && (k < |t| ==> t[k] == RBRACE)
    ensures forall m :: j <= m < k ==> t[m] != RBRACE
    decreases |t| - j
  {
    if j == |t| || t[j] == RBRACE then j else CloseFrom(t, j + 1)
  }

  /** `o` written in front of a successful expansion; an error stays an error. */
  function Prepend(o: Text, r: Result<Text, TemplateError>): Result<Text, TemplateError>
  {
    if r.Err? then r else Ok(o + r.value)
  }

  /** The text with every closed, non-empty placeholder replaced: first by its
      variable, then, for `date`, by the timestamp. An unclosed '{' is kept as it is,
      and the substituted value is not scanned again. */
  function Expand(t: Text, vars: map<Text, Text>, now: nat): Result<Text, TemplateError>
    decreases |t|
  {
    if t == [] then Ok([])
    else if t[0] != LBRACE then Prepend([t[0]], Expand(t[1..], vars, now))
    else
      var j := CloseFrom(t, 1);
      if j == |t| then Prepend([LBRACE], Expand(t[1..], vars, now))
      else
        var key := t[1..j];
        if key == [] then Err(InvalidTemplate)
        else if key in vars then Prepend(vars[key], Expand(t[j + 1..], vars, now))
        else if key == DATE then Prepend(Decimal(now), Expand(t[j + 1..], vars, now))
        else Err(MissingVariable)
  }

  /** `replace_variables`: the expansion cut to the rationale limit. */
  function Render(t: Text, vars: map<Text, Text>, now: nat): Result<Text, TemplateError>
  {
    match Expand(t, vars, now)
    case Err(e) => Err(e)
    case Ok(out) => Ok(if |out| > MAX_SIGNAL_RATIONALE_BYTES then out[..MAX_SIGNAL_RATIONALE_BYTES] else out)
  }

  function ToLower(b: Byte): Byte
  {
    if 65 <= b <= 90 then b + 32 else b
  }

  function Lower(s: Text): (l: Text)
    ensures |l| == |s| && forall i :: 0 <= i < |s| ==> l[i] == ToLower(s[i])
  {
    seq(|s|, i requires 0 <= i < |s| => ToLower(s[i]))
  }

  const BUY_LOWER: Text := [98, 117, 121]
  const SELL_LOWER: Text := [115, 101, 108, 108]

  /** `parse_action`. */
  function ParseAction(text: Text): (r: Result<SignalAction, TemplateError>)
    ensures r.Ok? <==> Lower(text) == BUY_LOWER || Lower(text) == SELL_LOWER
    ensures r == Ok(Buy) <==> Lower(text) == BUY_LOWER
    ensures r.Err? ==> r.error == InvalidAction
  {
    var lower := Lower(text);
    if lower == BUY_LOWER then Ok(Buy)
    else if lower == SELL_LOWER then Ok(Sell)
    else Err(InvalidAction)
  }

  /** Rust's `str::parse::<i128>`: an optional sign and at least one digit, in range. */
  function ParseI128(s: Text): (r: Option<int>)
    ensures r.Some? ==> InI128(r.value)
  {
    var negative := |s| > 0 && s[0] == MINUS;
    var digits := if |s| > 0 && (s[0] == MINUS || s[0] == PLUS) then s[1..] else s;
    if digits == [] || !AllDigits(digits) then None
    else
      var v := if negative then -(NumeralValue(digits) as int) else NumeralValue(digits) as int;
      if InI128(v) then Some(v) else None
  }

  /** `parse_price`: a positive i128; anything else is reported as a missing variable. */
  function ParsePrice(text: Text): (r: Result<int, TemplateError>)
    ensures r.Ok? ==> 0 < r.value <= I128_MAX
    ensures r.Err? ==> r.error == MissingVariable
  {
    match ParseI128(text)
    case None => Err(MissingVariable)
    case Some(price) => if price <= 0 then Err(MissingVariable) else Ok(price)
  }

  // ---------------------------------------------------------------------------
  // Implementation

  /** `get_variable`: the keys are compared one by one; their order is not modelled. */
  method GetVariable(vars: map<Text, Text>, key: Text) returns (r: Option<Text>)
    ensures r.Some? <==> key in vars
    ensures r.Some? ==> r.value == vars[key]
  {
    var remaining := vars.Keys;
    while remaining != {}
      invariant remaining <= vars.Keys
      invariant key in vars ==> key in remaining
      decreases |remaining|
    {
      var k :| k in remaining;
      if k == key {
        return Some(vars[k]);
      }
      remaining := remaining - {k};
    }
    r := None;
  }

  /** `replace_variables`. */
  method ReplaceVariables(template: Text, vars: map<Text, Text>, now: nat) returns (r: Result<Text, TemplateError>)
    ensures r == Render(template, vars, now)
  {
    var out: Text := [];
    var i := 0;
    PrependNothing(out, Expand(template, vars, now));
    assert template[i..] == template;
    while i < |template|
      invariant 0 <= i <= |template|
      invariant Expand(template, vars, now) == Prepend(out, Expand(template[i..], vars, now))
    {
      if template[i] == LBRACE {
        var j := FindClose(template, i + 1);
        BraceStep(template, i, j, vars, now);
        if j == |template| {
          PrependTwice(out, [LBRACE], Expand(template[i + 1..], vars, now));
          out := out + [LBRACE];
          i := i + 1;
          continue;
        }
        var key := template[i + 1..j];
        if key == [] {
          return Err(InvalidTemplate);
        }
        var value := GetVariable(vars, key);
        if value.Some? {
          PrependTwice(out, value.value, Expand(template[j + 1..], vars, now));
          out := out + value.value;
        } else if key == DATE {
          PrependTwice(out, Decimal(now), Expand(template[j + 1..], vars, now));
          out := out + Decimal(now);
        } else {
          return Err(MissingVariable);
        }
        i := j + 1;
        continue;
      }
      PlainStep(template, i, vars, now);
      PrependTwice(out, [template[i]], Expand(template[i + 1..], vars, now));
      out := out + [template[i]];
      i := i + 1;
    }
    var nothing: Text := [];
    assert template[i..] == nothing;
    assert out + nothing == out;
    if |out| > MAX_SIGNAL_RATIONALE_BYTES {
      out := out[..MAX_SIGNAL_RATIONALE_BYTES];
    }
    r := Ok(out);
  }

  lemma PrependNothing(o: Text, r: Result<Text, TemplateError>)
    requires o == []
    ensures Prepend(o, r) == r
  {
    if r.Ok? {
      assert o + r.value == r.value;
    }
  }

  /** One byte that is not '{' is copied. */
  lemma PlainStep(t: Text, i: nat, vars: map<Text, Text>, now: nat)
    requires i < |t| && t[i] != LBRACE
    ensures Expand(t[i..], vars, now) == Prepend([t[i]], Expand(t[i + 1..], vars, now))
  {
    assert t[i..][1..] == t[i + 1..];
  }

  /** The position of the first `}` from `from` on, or the end of the text. */
  method FindClose(t: Text, from: nat) returns (j: nat)
    requires from <= |t|
    ensures from <= j <= |t| && (j < |t| ==> t[j] == RBRACE)
    ensures forall m :: from <= m < j ==> t[m] != RBRACE
  {
    j := from;
    while j < |t| && t[j] != RBRACE
      invariant from <= j <= |t|
      invariant forall m :: from <= m < j ==> t[m] != RBRACE
    {
      j := j + 1;
    }
  }

  /** A '{' at `i` whose scan for '}' stopped at `j`: the four outcomes of the
      placeholder step. */
  lemma BraceStep(t: Text, i: nat, j: nat, vars: map<Text, Text>, now: nat)
    requires i < j <= |t| && t[i] == LBRACE && (j < |t| ==> t[j] == RBRACE)
    requires forall m :: i + 1 <= m < j ==> t[m] != RBRACE
    ensures var e := Expand(t[i..], vars, now);
            && (j == |t| ==> e == Prepend([LBRACE], Expand(t[i + 1..], vars, now)))
            && (j < |t| && j == i + 1 ==> e == Err(InvalidTemplate))
            && (j < |t| && j > i + 1 && t[i + 1..j] in vars ==>
                  e == Prepend(vars[t[i + 1..j]], Expand(t[j + 1..], vars, now)))
            && (j < |t| && j > i + 1 && t[i + 1..j] !in vars && t[i + 1..j] == DATE ==>
                  e == Prepend(Decimal(now), Expand(t[j + 1..], vars, now)))
            && (j < |t| && j > i + 1 && t[i + 1..j] !in vars && t[i + 1..j] != DATE ==> e == Err(MissingVariable))
  {
    var s := t[i..];
    assert s[1..] == t[i + 1..];
    ClosingBrace(s, 1, j - i);
    if j < |t| {
      assert s[1..j - i] == t[i + 1..j];
      assert s[j - i + 1..] == t[j + 1..];
    }
  }

  // ---------------------------------------------------------------------------
  // The template store

  class TemplateStore {
    var counter: nat
    var templates: map<nat, SignalTemplate>

    constructor ()
      ensures counter == 0 && templates == map[]
    {
      counter := 0;
      templates := map[];
    }

    /** `get_next_template_id`: ids run 1, 2, 3, ... */
    method NextTemplateId() returns (id: nat)
      requires counter < U64_MAX
      modifies this
      ensures id == old(counter) + 1 && counter == id
      ensures templates == old(templates)
    {
      counter := counter + 1;
      id := counter;
    }

    /** `store_template`. */
    method StoreTemplate(templateId: nat, template: SignalTemplate)
      modifies this
      ensures templates == old(templates)[templateId := template] && counter == old(counter)
    {
      templates := templates[templateId := template];
    }

    /** `get_template`. */
    function GetTemplate(templateId: nat): (t: Option<SignalTemplate>)
      reads this
      ensures t.Some? <==> templateId in templates
      ensures t.Some? ==> t.value == templates[templateId]
    {
      if templateId in templates then Some(templates[templateId]) else None
    }

    /** `increment_template_use_count`: the u32 counter refuses to wrap. */
    method IncrementTemplateUseCount(templateId: nat) returns (r: Result<(), TemplateError>)
      modifies this
      ensures templateId !in old(templates) ==> r == Err(TemplateNotFound)
      ensures templateId in old(templates) && old(templates)[templateId].useCount >= U32_MAX ==> r == Err(InvalidTemplate)
      ensures templateId in old(templates) && old(templates)[templateId].useCount < U32_MAX ==> r == Ok(())
      ensures r.Err? ==> templates == old(templates)
      ensures r.Ok? ==>
                && templateId in old(templates) && old(templates)[templateId].useCount < U32_MAX
                && templates == old(templates)[templateId := old(templates)[templateId].(useCount := old(templates)[templateId].useCount + 1)]
      ensures counter == old(counter)
    {
      if templateId !in templates {
        return Err(TemplateNotFound);
      }
      var template := templates[templateId];
      if template.useCount >= U32_MAX {
        return Err(InvalidTemplate);
      }
      templates := templates[templateId := template.(useCount := template.useCount + 1)];
      r := Ok(());
    }

    /** `set_template_visibility`: only the template's provider may change it. */
    method SetTemplateVisibility(provider: Address, templateId: nat, isPublic: bool) returns (r: Result<(), TemplateError>)
      modifies this
      ensures templateId !in old(templates) ==> r == Err(TemplateNotFound)
      ensures templateId in old(templates) && old(templates)[templateId].provider != provider ==> r == Err(TemplateError.Unauthorized)
      ensures templateId in old(templates) && old(templates)[templateId].provider == provider ==> r == Ok(())
      ensures r.Err? ==> templates == old(templates)
      ensures r.Ok? ==>
                && templateId in old(templates) && old(templates)[templateId].provider == provider
                && templates == old(templates)[templateId := old(templates)[templateId].(isPublic := isPublic)]
      ensures counter == old(counter)
    {
      if templateId !in templates {
        return Err(TemplateNotFound);
      }
      var template := templates[templateId];
      if template.provider != provider {
        return Err(TemplateError.Unauthorized);
      }
      templates := templates[templateId := template.(isPublic := isPublic)];
      r := Ok(());
    }
  }

  // ---------------------------------------------------------------------------
  // Properties

  /** The first '}' found by a scan is the one `CloseFrom` names. */
  lemma ClosingBrace(t: Text, j: nat, k: nat)
    requires j <= k <= |t| && (k < |t| ==> t[k] == RBRACE)
    requires forall m :: j <= m < k ==> t[m] != RBRACE
    ensures CloseFrom(t, j) == k
  {
  }

  lemma PrependTwice(a: Text, b: Text, r: Result<Text, TemplateError>)
    ensures Prepend(a, Prepend(b, r)) == Prepend(a + b, r)
  {
    if r.Ok? {
      assert a + (b + r.value) == (a + b) + r.value;
    }
  }

  /** Text without '{' expands to itself, in front of whatever follows. */
  lemma {:induction false} PlainText(p: Text, rest: Text, vars: map<Text, Text>, now: nat)
    requires LBRACE !in p
    ensures Expand(p + rest, vars, now) == Prepend(p, Expand(rest, vars, now))
  {
    if p == [] {
      assert p + rest == rest;
      assert Prepend(p, Expand(rest, vars, now)) == Expand(rest, vars, now) by {
        if Expand(rest, vars, now).Ok? {
          assert p + Expand(rest, vars, now).value == Expand(rest, vars, now).value;
        }
      }
    } else {
      assert (p + rest)[1..] == p[1..] + rest;
      PlainText(p[1..], rest, vars, now);
      PrependTwice([p[0]], p[1..], Expand(rest, vars, now));
      assert [p[0]] + p[1..] == p;
    }
  }

  /** A text with no '{' is copied unchanged, up to the rationale limit. */
  lemma NoPlaceholders(t: Text, vars: map<Text, Text>, now: nat)
    requires LBRACE !in t
    ensures Expand(t, vars, now) == Ok(t)
    ensures Render(t, vars, now) == Ok(t[..Min(|t|, MAX_SIGNAL_RATIONALE_BYTES)])
  {
    var nothing: Text := [];
    PlainText(t, nothing, vars, now);
    assert t + nothing == t;
  }

  /** A text with no '}' is copied unchanged: every '{' in it is unclosed. */
  lemma {:induction false} NoClosingBrace(t: Text, vars: map<Text, Text>, now: nat)
    requires RBRACE !in t
    ensures Expand(t, vars, now) == Ok(t)
  {
    if t != [] {
      assert RBRACE !in t[1..];
      NoClosingBrace(t[1..], vars, now);
      if t[0] == LBRACE {
        assert CloseFrom(t, 1) == |t| by { ClosingBrace(t, 1, |t|); }
      }
      assert [t[0]] + t[1..] == t;
    }
  }

  /** A placeholder is replaced by its variable, or by the timestamp for `date`, and
      expansion resumes after its '}' without looking at the value; `{}` and an unknown
      key are errors. */
  lemma Placeholder(key: Text, rest: Text, vars: map<Text, Text>, now: nat)
    requires RBRACE !in key
    ensures var e := Expand([LBRACE] + key + [RBRACE] + rest, vars, now);
            && (key == [] ==> e == Err(InvalidTemplate))
            && (key != [] && key in vars ==> e == Prepend(vars[key], Expand(rest, vars, now)))
            && (key != [] && key !in vars && key == DATE ==> e == Prepend(Decimal(now), Expand(rest, vars, now)))
            && (key != [] && key !in vars && key != DATE ==> e == Err(MissingVariable))
  {
    var t := [LBRACE] + key + [RBRACE] + rest;
    assert t[1..|key| + 1] == key;
    assert t[|key| + 2..] == rest;
    ClosingBrace(t, 1, |key| + 1);
  }

  /** The rendered text never exceeds the rationale limit and is a prefix of the full
      expansion; rendering fails exactly when expansion does, with the same error. */
  lemma RenderMeaning(t: Text, vars: map<Text, Text>, now: nat)
    ensures Render(t, vars, now).Ok? <==> Expand(t, vars, now).Ok?
    ensures Expand(t, vars, now).Err? ==> Render(t, vars, now) == Expand(t, vars, now)
    ensures Render(t, vars, now).Ok? ==>
              var out := Render(t, vars, now).value;
              var full := Expand(t, vars, now).value;
              && |out| == Min(|full|, MAX_SIGNAL_RATIONALE_BYTES)
              && out == full[..|out|]
  {
  }

  /** A rationale of `{key} {date}` with `key` set and no `date` variable: both
      placeholders are substituted, in order, and the space between them is kept. */
  lemma RenderExample(key: Text, vars: map<Text, Text>, now: nat)
    requires key != [] && RBRACE !in key && key in vars && DATE !in vars
    ensures Expand([LBRACE] + key + [RBRACE] + ([32] + ([LBRACE] + DATE + [RBRACE])), vars, now)
            == Ok(vars[key] + ([32] + Decimal(now)))
  {
    var date := [LBRACE] + DATE + [RBRACE];
    Placeholder(key, [32] + date, vars, now);
    var nothing: Text := [];
    Placeholder(DATE, nothing, vars, now);
    assert date + nothing == date;
    PlainText([32], date, vars, now);
    assert Expand(nothing, vars, now) == Ok(nothing);
    assert Decimal(now) + nothing == Decimal(now);
  }

  /** The case of the action text does not matter. */
  lemma ActionIgnoresCase(text: Text)
    ensures ParseAction(Lower(text)) == ParseAction(text)
  {
    assert Lower(Lower(text)) == Lower(text);
  }

  lemma ActionExamples()
    ensures ParseAction([66, 85, 89]) == Ok(Buy)
    ensures ParseAction([83, 101, 76, 108]) == Ok(Sell)
    ensures ParseAction([104, 111, 108, 100]) == Err(InvalidAction)
  {
    assert Lower([66, 85, 89]) == BUY_LOWER;
    assert Lower([83, 101, 76, 108]) == SELL_LOWER;
    assert Lower([104, 111, 108, 100])[0] != BUY_LOWER[0];
  }

  /** A price written in decimal, as the timestamp is, parses back to itself; a
      leading '-' or a zero value is refused. */
  lemma PriceMeaning(n: nat, text: Text)
    ensures 0 < n <= I128_MAX ==> ParsePrice(Decimal(n)) == Ok(n)
    ensures 0 < n <= I128_MAX ==> ParsePrice([PLUS] + Decimal(n)) == Ok(n)
    ensures |text| > 0 && text[0] == MINUS ==> ParsePrice(text) == Err(MissingVariable)
    ensures ParsePrice(Decimal(0)) == Err(MissingVariable)
  {
    assert ([PLUS] + Decimal(n))[1..] == Decimal(n);
  }
}
