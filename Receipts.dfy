/** The receipt generator: the receipt fields derived from a transaction (defaults, status
    classification, received amount) and the global `{{key}}` placeholder substitution that turns an
    HTML template into the receipt. */
module Receipts {
  import opened Wrappers
  import opened Formatting

  /** The transaction fields `generateReceipt` destructures; `None` is an absent (`undefined`) field.
      `dateTime` is the creation time already rendered as local date text. */
  datatype ReceiptInput = ReceiptInput(
    transactionId: Option<string>,
    amount: Option<real>,
    fromCurrency: Option<string>,
    toCurrency: Option<string>,
    fxRate: Option<real>,
    commission: Option<real>,
    selectedPSP: Option<string>,
    senderEmail: Option<string>,
    recipientEmail: Option<string>,
    status: Option<string>,
    dateTime: string)

  /** The `receiptData` object, each field as the text it holds (the transaction id as given). */
  datatype ReceiptData = ReceiptData(
    transactionId: Option<string>,
    dateTime: string,
    amount: string,
    fromCurrency: string,
    toCurrency: string,
    fxRate: string,
    commission: string,
    totalReceived: string,
    pspName: string,
    senderEmail: string,
    recipientEmail: string,
    statusClass: string,
    statusIcon: string,
    statusText: string)

  datatype Receipt = Receipt(html: string, data: ReceiptData, transactionId: Option<string>)

  datatype ReceiptJson = ReceiptJson(
    transactionId: Option<string>, generatedAt: string, receiptData: ReceiptData, format: string, htmlContent: string)

  /** The error JavaScript raises at `amount.toFixed(2)` when the amount is absent. */
  const MissingAmount: string := "Cannot read properties of undefined (reading 'toFixed')"

  /** A receipt shows success for the statuses 'completed' and 'success' only. */
  predicate IsSuccess(status: string) {
    status == "completed" || status == "success"
  }

  /** The status after the default: an absent status counts as 'completed'. */
  function StatusOf(input: ReceiptInput): string {
    input.status.GetOr("completed")
  }

  /** What the recipient receives: the amount net of commission, converted at the FX rate. */
  function TotalReceived(amount: real, commission: real, fxRate: real): real {
    (amount - commission) * fxRate
  }

  /** The receipt fields `generateReceipt` derives, or the error it throws without an amount. */
  function Derive(input: ReceiptInput): (r: Result<ReceiptData>)
    ensures r.Err? <==> input.amount.None?
    ensures r.Err? ==> r.error == MissingAmount
  {
    if input.amount.None? then Err(MissingAmount)
    else
      var fxRate := input.fxRate.GetOr(1.0);
      var commission := input.commission.GetOr(0.0);
      var isSuccess := IsSuccess(StatusOf(input));
      Ok(ReceiptData(
        input.transactionId,
        input.dateTime,
        ToFixed(input.amount.value, 2),
        input.fromCurrency.GetOr("TRY"),
        input.toCurrency.GetOr("USD"),
        ToFixed(fxRate, 4),
        ToFixed(commission, 2),
        ToFixed(TotalReceived(input.amount.value, commission, fxRate), 2),
        input.selectedPSP.GetOr("Unknown"),
        input.senderEmail.GetOr("N/A"),
        input.recipientEmail.GetOr("N/A"),
        if isSuccess then "" else "failed",
        if isSuccess then "✅" else "❌",
        if isSuccess then "Payment Successful" else "Payment Failed"))
  }

  /** The derived fields: the amount, rate and commission as fixed-point text (rate 1 and no
      commission by default), the received amount, the given text fields or their defaults, and the
      success status shown exactly for a successful status. */
  lemma DerivedFields(input: ReceiptInput)
    requires input.amount.Some?
    ensures Derive(input).Ok?
    ensures var d := Derive(input).value;
      && d.transactionId == input.transactionId && d.dateTime == input.dateTime
      && d.amount == ToFixed(input.amount.value, 2)
      && d.fxRate == ToFixed(input.fxRate.GetOr(1.0), 4)
      && d.commission == ToFixed(input.commission.GetOr(0.0), 2)
      && d.totalReceived == ToFixed(TotalReceived(input.amount.value, input.commission.GetOr(0.0), input.fxRate.GetOr(1.0)), 2)
    ensures var d := Derive(input).value;
      && d.fromCurrency == (if input.fromCurrency.Some? then input.fromCurrency.value else "TRY")
      && d.toCurrency == (if input.toCurrency.Some? then input.toCurrency.value else "USD")
      && d.pspName == (if input.selectedPSP.Some? then input.selectedPSP.value else "Unknown")
      && d.senderEmail == (if input.senderEmail.Some? then input.senderEmail.value else "N/A")
      && d.recipientEmail == (if input.recipientEmail.Some? then input.recipientEmail.value else "N/A")
    ensures var d := Derive(input).value;
      && (d.statusClass == "" <==> IsSuccess(StatusOf(input)))
      && (d.statusText == "Payment Successful" <==> IsSuccess(StatusOf(input)))
      && (d.statusIcon == "✅" <==> IsSuccess(StatusOf(input)))
  {
  }

  /** A transaction that gives only an amount gets every default and shows success, with the
      amount received equal to the amount itself (no commission, rate 1). */
  lemma DefaultsShowSuccess(amount: real, dateTime: string)
    ensures var r := Derive(ReceiptInput(None, Some(amount), None, None, None, None, None, None, None, None, dateTime));
      && r.Ok?
      && r.value.statusText == "Payment Successful" && r.value.statusClass == ""
      && r.value.totalReceived == r.value.amount
      && r.value.fxRate == ToFixed(1.0, 4) && r.value.commission == ToFixed(0.0, 2)
  {
    DerivedFields(ReceiptInput(None, Some(amount), None, None, None, None, None, None, None, None, dateTime));
    assert TotalReceived(amount, 0.0, 1.0) == amount;
  }

  // ---------------------------------------------------------------------------
  // Placeholder substitution

  /** The keys of `receiptData`, in the order the substitution visits them. */
  const ReceiptKeys: seq<string> := [
    "transactionId", "dateTime", "amount", "fromCurrency", "toCurrency", "fxRate", "commission",
    "totalReceived", "pspName", "senderEmail", "recipientEmail", "statusClass", "statusIcon", "statusText"]

  /** The key/value pairs of `receiptData` in key order; an absent transaction id is written "undefined". */
  function Pairs(d: ReceiptData): (ps: seq<(string, string)>)
    ensures |ps| == |ReceiptKeys|
    ensures forall i :: 0 <= i < |ps| ==> ps[i].0 == ReceiptKeys[i]
  {
    [("transactionId", Show(d.transactionId)), ("dateTime", d.dateTime), ("amount", d.amount),
     ("fromCurrency", d.fromCurrency), ("toCurrency", d.toCurrency), ("fxRate", d.fxRate),
     ("commission", d.commission), ("totalReceived", d.totalReceived), ("pspName", d.pspName),
     ("senderEmail", d.senderEmail), ("recipientEmail", d.recipientEmail), ("statusClass", d.statusClass),
     ("statusIcon", d.statusIcon), ("statusText", d.statusText)]
  }

  /** The text the pattern `{{key}}` matches. */
  function Placeholder(key: string): (p: string)
    ensures |p| == |key| + 4 && p[0] == '{' && p[1] == '{'
  {
    "{{" + key + "}}"
  }

  /** The replacement text `String.prototype.replace` inserts for one match of a pattern without
      capture groups: `$$` is '$', `$&` the match, `` $` `` the text before the match and `$'` the text
      after it; every other character, and every other `$`, stands for itself. */
  function Expand(rep: string, matched: string, before: string, after: string): string
    decreases |rep|
  {
    if |rep| >= 2 && rep[0] == '$' && rep[1] == '$' then "$" + Expand(rep[2..], matched, before, after)
    else if |rep| >= 2 && rep[0] == '$' && rep[1] == '&' then matched + Expand(rep[2..], matched, before, after)
    else if |rep| >= 2 && rep[0] == '$' && rep[1] == '`' then before + Expand(rep[2..], matched, before, after)
    else if |rep| >= 2 && rep[0] == '$' && rep[1] == '\'' then after + Expand(rep[2..], matched, before, after)
    else if rep == [] then []
    else [rep[0]] + Expand(rep[1..], matched, before, after)
  }

  predicate NoDollar(s: string) {
    forall i :: 0 <= i < |s| ==> s[i] != '$'
  }

  /** A replacement without '$' is inserted as it is. */
  lemma {:induction false} ExpandLiteral(rep: string, matched: string, before: string, after: string)
    requires NoDollar(rep)
    ensures Expand(rep, matched, before, after) == rep
    decreases |rep|
  {
    if rep != [] {
      ExpandLiteral(rep[1..], matched, before, after);
      assert [rep[0]] + rep[1..] == rep;
    }
  }

  /** The scan of `s.replace(new RegExp(pat, 'g'), rep)` from position `pos`, for a pattern that
      matches its own text: each match is replaced by the expansion of `rep` and the scan resumes after
      it; `before` and `after` are taken from the original text. */
  function ReplaceFrom(s: string, pos: nat, pat: string, rep: string): string
    requires pat != [] && pos <= |s|
    decreases |s| - pos
  {
    if |s| - pos < |pat| then s[pos..]
    else if s[pos..pos + |pat|] == pat then
      Expand(rep, pat, s[..pos], s[pos + |pat|..]) + ReplaceFrom(s, pos + |pat|, pat, rep)
    else [s[pos]] + ReplaceFrom(s, pos + 1, pat, rep)
  }

  /** `s.replace(new RegExp(pat, 'g'), rep)` for a pattern that matches its own text. */
  function ReplaceAll(s: string, pat: string, rep: string): string
    requires pat != []
  {
    ReplaceFrom(s, 0, pat, rep)
  }

  /** `pat` occurs somewhere in `s`. */
  predicate Occurs(s: string, pat: string)
    requires pat != []
    decreases |s|
  {
    |s| >= |pat| && (s[..|pat|] == pat || Occurs(s[1..], pat))
  }

  predicate NoOpenBrace(s: string) {
    forall i :: 0 <= i < |s| ==> s[i] != '{'
  }

  predicate BraceFree(s: string) {
    forall i :: 0 <= i < |s| ==> s[i] != '{' && s[i] != '}'
  }

  lemma {:induction false} NoOccurrenceFrom(s: string, pos: nat, pat: string, rep: string)
    requires pat != [] && pos <= |s| && !Occurs(s[pos..], pat)
    ensures ReplaceFrom(s, pos, pat, rep) == s[pos..]
    decreases |s| - pos
  {
    if |s| - pos >= |pat| {
      assert s[pos..][..|pat|] == s[pos..pos + |pat|];
      assert s[pos..][1..] == s[pos + 1..];
      NoOccurrenceFrom(s, pos + 1, pat, rep);
      assert [s[pos]] + s[pos + 1..] == s[pos..];
    }
  }

  /** A text without any occurrence of the pattern is left as it is. */
  lemma NoOccurrenceUnchanged(s: string, pat: string, rep: string)
    requires pat != [] && !Occurs(s, pat)
    ensures ReplaceAll(s, pat, rep) == s
  {
    assert s[0..] == s;
    NoOccurrenceFrom(s, 0, pat, rep);
  }

  /** A pattern cannot occur in a text that lacks its first character. */
  lemma {:induction false} MissingFirstCharNoOccurrence(s: string, pat: string)
    requires pat != [] && forall i :: 0 <= i < |s| ==> s[i] != pat[0]
    ensures !Occurs(s, pat)
    decreases |s|
  {
    if |s| >= |pat| {
      assert s[..|pat|][0] == s[0];
      MissingFirstCharNoOccurrence(s[1..], pat);
    }
  }

  /** Replacing a placeholder leaves a text without '{' unchanged. */
  lemma NoOpenBraceUnchanged(s: string, key: string, rep: string)
    requires NoOpenBrace(s)
    ensures ReplaceAll(s, Placeholder(key), rep) == s
  {
    MissingFirstCharNoOccurrence(s, Placeholder(key));
    NoOccurrenceUnchanged(s, Placeholder(key), rep);
  }

  /** The placeholder of one brace-free key does not occur in that of another. */
  lemma PlaceholderDistinct(k: string, k2: string)
    requires BraceFree(k) && BraceFree(k2) && k != k2
    ensures !Occurs(Placeholder(k), Placeholder(k2))
  {
    var p, p2 := Placeholder(k), Placeholder(k2);
    if |p| >= |p2| {
      if |k2| < |k| {
        assert p[..|p2|][2 + |k2|] == k[|k2|];
        assert p2[2 + |k2|] == '}';
      } else {
        assert p[2..2 + |k|] == k && p2[2..2 + |k2|] == k2;
        assert p[..|p2|] == p;
      }
      assert p[..|p2|] != p2;
    }
    var tail := p[1..];
    if |tail| >= |p2| {
      assert tail[..|p2|][1] != '{' by {
        assert |k| > 0;
        assert tail[1] == k[0];
      }
      assert tail[..|p2|] != p2;
    }
    assert tail[1..] == k + "}}";
    MissingFirstCharNoOccurrence(k + "}}", p2);
  }

  /** A placeholder on its own is replaced by the expansion of the value, with nothing before or
      after the match; a value without '$' is inserted as it is. */
  lemma PlaceholderReplaced(key: string, rep: string)
    ensures ReplaceAll(Placeholder(key), Placeholder(key), rep) == Expand(rep, Placeholder(key), "", "")
    ensures NoDollar(rep) ==> ReplaceAll(Placeholder(key), Placeholder(key), rep) == rep
  {
    var p := Placeholder(key);
    assert p[..0] == [] && p[0..|p|] == p && p[|p|..] == [];
    assert ReplaceFrom(p, |p|, p, rep) == [];
    assert ReplaceAll(p, p, rep) == Expand(rep, p, p[..0], p[|p|..]) + ReplaceFrom(p, |p|, p, rep);
    if NoDollar(rep) {
      ExpandLiteral(rep, p, "", "");
    }
  }

  /** `$&` in a value puts the placeholder itself back: an e-mail address "a$&b@x.com" renders as
      "a{{senderEmail}}b@x.com". */
  lemma MatchPatternReinsertsPlaceholder()
    ensures ReplaceAll(Placeholder("senderEmail"), Placeholder("senderEmail"), "a$&b@x.com")
            == "a{{senderEmail}}b@x.com"
  {
    var p := Placeholder("senderEmail");
    var rest := "b@x.com";
    var value := ['a'] + ("$&" + rest);
    assert "a$&b@x.com" == value;
    assert "a{{senderEmail}}b@x.com" == ['a'] + (p + rest);
    assert ReplaceAll(p, p, value) == Expand(value, p, "", "") by {
      PlaceholderReplaced("senderEmail", value);
    }
    assert Expand(value, p, "", "") == ['a'] + (p + rest) by {
      ExpandLiteral(rest, p, "", "");
      ExpandMatch(rest, p, "", "");
      ExpandPlain('a', "$&" + rest, p, "", "");
    }
  }

  lemma ExpandMatch(rep: string, matched: string, before: string, after: string)
    ensures Expand("$&" + rep, matched, before, after) == matched + Expand(rep, matched, before, after)
  {
    assert ("$&" + rep)[2..] == rep;
  }

  lemma ExpandPlain(c: char, rep: string, matched: string, before: string, after: string)
    requires c != '$'
    ensures Expand([c] + rep, matched, before, after) == [c] + Expand(rep, matched, before, after)
  {
    assert ([c] + rep)[1..] == rep;
  }

  /** The `forEach` over the keys: each key's placeholder replaced, globally, in key order. */
  function Substitute(template: string, ps: seq<(string, string)>): string
  {
    if ps == [] then template
    else
      var n := |ps| - 1;
      ReplaceAll(Substitute(template, ps[..n]), Placeholder(ps[n].0), ps[n].1)
  }

  predicate KeysDistinct(ps: seq<(string, string)>) {
    forall j, l :: 0 <= j < l < |ps| ==> ps[j].0 != ps[l].0
  }

  predicate WellFormedPairs(ps: seq<(string, string)>) {
    && (forall j :: 0 <= j < |ps| ==> BraceFree(ps[j].0) && NoOpenBrace(ps[j].1) && NoDollar(ps[j].1))
    && KeysDistinct(ps)
  }

  /** The placeholder of a key no pair has is not touched by the substitution. */
  lemma {:induction false} OtherKeysLeavePlaceholder(ps: seq<(string, string)>, k: string)
    requires BraceFree(k)
    requires forall j :: 0 <= j < |ps| ==> BraceFree(ps[j].0) && ps[j].0 != k
    ensures Substitute(Placeholder(k), ps) == Placeholder(k)
  {
    if ps != [] {
      var n := |ps| - 1;
      OtherKeysLeavePlaceholder(ps[..n], k);
      PlaceholderDistinct(k, ps[n].0);
      NoOccurrenceUnchanged(Placeholder(k), Placeholder(ps[n].0), ps[n].1);
    }
  }

  /** With distinct brace-free keys and values without '{' or '$', the placeholder of each key renders as
      that key's value. */
  lemma {:induction false} PlaceholderRendersValue(ps: seq<(string, string)>, i: nat)
    requires i < |ps| && WellFormedPairs(ps)
    ensures Substitute(Placeholder(ps[i].0), ps) == ps[i].1
  {
    var n := |ps| - 1;
    var init := ps[..n];
    WellFormedInit(ps, init);
    if n == i {
      OtherKeysLeavePlaceholder(init, ps[i].0);
      PlaceholderReplaced(ps[i].0, ps[i].1);
    } else {
      assert init[i] == ps[i];
      PlaceholderRendersValue(init, i);
      NoOpenBraceUnchanged(ps[i].1, ps[n].0, ps[n].1);
    }
  }

  /** Dropping the last pair keeps the pairs well formed, and no earlier key is the last one. */
  lemma WellFormedInit(ps: seq<(string, string)>, init: seq<(string, string)>)
    requires ps != [] && WellFormedPairs(ps) && init == ps[..|ps| - 1]
    ensures WellFormedPairs(init)
    ensures forall j :: 0 <= j < |init| ==> BraceFree(init[j].0) && init[j].0 != ps[|ps| - 1].0
  {
    assert forall j :: 0 <= j < |init| ==> init[j] == ps[j];
  }

  /** The receipt keys are distinct and free of braces. */
  lemma ReceiptKeysWellFormed()
    ensures forall j :: 0 <= j < |ReceiptKeys| ==> BraceFree(ReceiptKeys[j])
    ensures forall j, l :: 0 <= j < l < |ReceiptKeys| ==> ReceiptKeys[j] != ReceiptKeys[l]
  {
  }

  /** `generateReceipt` as a function: the substituted template with the derived data and the
      transaction id passed through, or the error for a missing amount. */
  function ReceiptOf(template: string, input: ReceiptInput): (r: Result<Receipt>)
    ensures r.Err? <==> input.amount.None?
    ensures r.Ok? ==> r.value.transactionId == input.transactionId && Derive(input).Ok?
    ensures r.Ok? ==> r.value.data == Derive(input).value
    ensures r.Ok? ==> r.value.html == Substitute(template, Pairs(r.value.data))
  {
    var data :- Derive(input);
    Ok(Receipt(Substitute(template, Pairs(data)), data, input.transactionId))
  }

  /** A field value that `replace` inserts as it is and that no later key's pattern can match. */
  predicate PlainText(s: string) {
    NoOpenBrace(s) && NoDollar(s)
  }

  /** No field of the receipt data contains '{' or '$'. */
  predicate PlainFields(d: ReceiptData) {
    && PlainText(Show(d.transactionId)) && PlainText(d.dateTime) && PlainText(d.amount)
    && PlainText(d.fromCurrency) && PlainText(d.toCurrency) && PlainText(d.fxRate)
    && PlainText(d.commission) && PlainText(d.totalReceived) && PlainText(d.pspName)
    && PlainText(d.senderEmail) && PlainText(d.recipientEmail) && PlainText(d.statusClass)
    && PlainText(d.statusIcon) && PlainText(d.statusText)
  }

  /** In a generated receipt, every `{{key}}` of the receipt data renders as that field, provided no
      field value contains '{' or '$'. */
  lemma ReceiptFieldRendered(d: ReceiptData, i: nat)
    requires i < |ReceiptKeys| && PlainFields(d)
    ensures Substitute(Placeholder(ReceiptKeys[i]), Pairs(d)) == Pairs(d)[i].1
  {
    var ps := Pairs(d);
    ReceiptKeysWellFormed();
    PlaceholderRendersValue(ps, i);
  }

  // ---------------------------------------------------------------------------
  // Whole templates: literal text around and between placeholders

  /** A template cut at its placeholders: literal text, or the placeholder of a key. */
  datatype Piece = Text(text: string) | Hole(key: string)

  function PieceText(p: Piece): string {
    match p
    case Text(t) => t
    case Hole(k) => Placeholder(k)
  }

  /** The template text the pieces spell out. */
  function Flatten(pieces: seq<Piece>): string
    decreases |pieces|
  {
    if pieces == [] then [] else PieceText(pieces[0]) + Flatten(pieces[1..])
  }

  /** Text in which no placeholder can begin: no "{{" and no '{' at its end. A CSS rule such as
      "body { margin: 0 }" is such text. */
  predicate Literal(t: string) {
    && (forall i :: 0 <= i < |t| - 1 ==> t[i] != '{' || t[i + 1] != '{')
    && (t != [] ==> t[|t| - 1] != '{')
  }

  predicate WellFormedPieces(pieces: seq<Piece>) {
    forall i :: 0 <= i < |pieces| ==>
      match pieces[i]
      case Text(t) => Literal(t)
      case Hole(k) => BraceFree(k)
  }

  /** The value of the first pair for key `k`, if any. */
  function ValueOf(ps: seq<(string, string)>, k: string): (r: Option<string>)
    ensures r.None? <==> forall j :: 0 <= j < |ps| ==> ps[j].0 != k
    ensures r.Some? ==> exists j :: 0 <= j < |ps| && ps[j] == (k, r.value) && forall l :: 0 <= l < j ==> ps[l].0 != k
  {
    if ps == [] then None
    else
      var n := |ps| - 1;
      var first := ValueOf(ps[..n], k);
      assert forall j :: 0 <= j < n ==> ps[..n][j] == ps[j];
      if first.Some? then first
      else if ps[n].0 == k then Some(ps[n].1)
      else None
  }

  /** The pieces with every placeholder whose key has a pair replaced by that key's first value. */
  function Filled(pieces: seq<Piece>, ps: seq<(string, string)>): (r: seq<Piece>)
    ensures |r| == |pieces|
  {
    seq(|pieces|, i requires 0 <= i < |pieces| =>
      if pieces[i].Hole? && ValueOf(ps, pieces[i].key).Some? then Text(ValueOf(ps, pieces[i].key).value)
      else pieces[i])
  }

  /** The pieces with the placeholders of one key replaced by `v`. */
  function FillKey(pieces: seq<Piece>, k: string, v: string): (r: seq<Piece>)
    ensures |r| == |pieces|
  {
    seq(|pieces|, i requires 0 <= i < |pieces| => if pieces[i] == Hole(k) then Text(v) else pieces[i])
  }

  /** The scan of `ReplaceFrom` for a value without '$', on the rest of the text alone. */
  function ReplaceLiteral(s: string, pat: string, v: string): string
    requires pat != []
    decreases |s|
  {
    if |s| < |pat| then s
    else if s[..|pat|] == pat then v + ReplaceLiteral(s[|pat|..], pat, v)
    else [s[0]] + ReplaceLiteral(s[1..], pat, v)
  }

  /** For a value without '$' the replacement depends only on the text still to scan. */
  lemma {:induction false} ReplaceFromLiteral(s: string, pos: nat, pat: string, v: string)
    requires pat != [] && pos <= |s| && NoDollar(v)
    ensures ReplaceFrom(s, pos, pat, v) == ReplaceLiteral(s[pos..], pat, v)
    decreases |s| - pos
  {
    var t := s[pos..];
    if |s| - pos >= |pat| {
      var m := pos + |pat|;
      assert t[..|pat|] == s[pos..m];
      if s[pos..m] == pat {
        calc {
          ReplaceFrom(s, pos, pat, v);
          Expand(v, pat, s[..pos], s[m..]) + ReplaceFrom(s, m, pat, v);
          { ExpandLiteral(v, pat, s[..pos], s[m..]); ReplaceFromLiteral(s, m, pat, v); }
          v + ReplaceLiteral(s[m..], pat, v);
          { assert t[|pat|..] == s[m..]; }
          ReplaceLiteral(t, pat, v);
        }
      } else {
        calc {
          ReplaceFrom(s, pos, pat, v);
          [s[pos]] + ReplaceFrom(s, pos + 1, pat, v);
          { ReplaceFromLiteral(s, pos + 1, pat, v); }
          [s[pos]] + ReplaceLiteral(s[pos + 1..], pat, v);
          { assert t[1..] == s[pos + 1..]; }
          ReplaceLiteral(t, pat, v);
        }
      }
    }
  }

  /** Literal text in front is passed over unchanged by a pattern that starts with "{{". */
  lemma {:induction false} LiteralPrefix(t: string, rest: string, pat: string, v: string)
    requires Literal(t) && |pat| >= 2 && pat[0] == '{' && pat[1] == '{'
    ensures ReplaceLiteral(t + rest, pat, v) == t + ReplaceLiteral(rest, pat, v)
    decreases |t|
  {
    if t == [] {
      assert t + rest == rest;
    } else if |t + rest| < |pat| {
      assert ReplaceLiteral(rest, pat, v) == rest;
    } else {
      var s, t1 := t + rest, t[1..];
      calc {
        ReplaceLiteral(s, pat, v);
        { LiteralNoMatch(t, rest, pat); }
        [s[0]] + ReplaceLiteral(s[1..], pat, v);
        { assert s[1..] == t1 + rest; }
        [t[0]] + ReplaceLiteral(t1 + rest, pat, v);
        { LiteralTail(t); LiteralPrefix(t1, rest, pat, v); }
        [t[0]] + (t1 + ReplaceLiteral(rest, pat, v));
        { assert [t[0]] + t1 == t; }
        t + ReplaceLiteral(rest, pat, v);
      }
    }
  }

  /** No match of such a pattern begins at the start of literal text. */
  lemma LiteralNoMatch(t: string, rest: string, pat: string)
    requires Literal(t) && t != [] && |pat| >= 2 && pat[0] == '{' && pat[1] == '{' && |t + rest| >= |pat|
    ensures (t + rest)[..|pat|] != pat
  {
    if t[0] == '{' {
      assert (t + rest)[..|pat|][1] == t[1];
    }
  }

  lemma LiteralTail(t: string)
    requires Literal(t) && t != []
    ensures Literal(t[1..])
  {
    var t1 := t[1..];
    assert forall i :: 0 <= i < |t1| ==> t1[i] == t[i + 1];
  }

  /** The placeholder being replaced, in front, becomes the value. */
  lemma HoleReplaced(rest: string, k: string, v: string)
    ensures ReplaceLiteral(Placeholder(k) + rest, Placeholder(k), v) == v + ReplaceLiteral(rest, Placeholder(k), v)
  {
    var p := Placeholder(k);
    assert (p + rest)[..|p|] == p && (p + rest)[|p|..] == rest;
  }

  /** Another key's placeholder does not begin with a placeholder. */
  lemma PlaceholderNotPrefix(s: string, k: string, k2: string)
    requires BraceFree(k) && BraceFree(k2) && k != k2
    requires |Placeholder(k)| <= |s| && |Placeholder(k2)| <= |s| && s[..|Placeholder(k2)|] == Placeholder(k2)
    ensures s[..|Placeholder(k)|] != Placeholder(k)
  {
    var p, q := Placeholder(k), Placeholder(k2);
    if |k| == |k2| {
      assert s[..|p|][2..2 + |k|] == q[2..2 + |k|] == k2;
      assert p[2..2 + |k|] == k;
    } else if |k| < |k2| {
      assert s[..|p|][2 + |k|] == q[2 + |k|] == k2[|k|];
    } else {
      assert s[..|p|][2 + |k2|] == q[2 + |k2|] == '}';
    }
  }

  /** Another key's placeholder, in front, is passed over unchanged. */
  lemma HoleKept(rest: string, k: string, k2: string, v: string)
    requires BraceFree(k) && BraceFree(k2) && k != k2
    ensures ReplaceLiteral(Placeholder(k2) + rest, Placeholder(k), v) == Placeholder(k2) + ReplaceLiteral(rest, Placeholder(k), v)
  {
    var p, q := Placeholder(k), Placeholder(k2);
    var s := q + rest;
    var tail := k2 + "}}";
    assert q == ['{'] + (['{'] + tail);
    assert s[0] == '{' && s[1..] == ['{'] + (tail + rest);
    if |s| < |p| {
      assert ReplaceLiteral(rest, p, v) == rest;
    } else {
      assert s[..|p|] != p by {
        assert s[..|q|] == q;
        PlaceholderNotPrefix(s, k, k2);
      }
      BraceFreeTailKept(tail, rest, p, v);
    }
  }

  /** "{" and brace-free text with its closing "}}", in front, are passed over unchanged. */
  lemma BraceFreeTailKept(tail: string, rest: string, p: string, v: string)
    requires |p| >= 2 && p[0] == '{' && p[1] == '{'
    requires tail != [] && forall i :: 0 <= i < |tail| ==> tail[i] != '{'
    ensures ReplaceLiteral(['{'] + (tail + rest), p, v) == ['{'] + (tail + ReplaceLiteral(rest, p, v))
  {
    var s1 := ['{'] + (tail + rest);
    assert Literal(tail);
    LiteralPrefix(tail, rest, p, v);
    if |s1| < |p| {
      assert ReplaceLiteral(rest, p, v) == rest;
    } else {
      assert s1[..|p|][1] == tail[0];
      assert s1[1..] == tail + rest;
    }
  }

  /** One key's replacement over a whole template: its placeholders become the value, the rest is kept. */
  lemma {:induction false} ReplacePieces(pieces: seq<Piece>, k: string, v: string)
    requires WellFormedPieces(pieces) && BraceFree(k)
    ensures ReplaceLiteral(Flatten(pieces), Placeholder(k), v) == Flatten(FillKey(pieces, k, v))
    decreases |pieces|
  {
    if pieces == [] {
      assert ReplaceLiteral([], Placeholder(k), v) == [];
      assert FillKey(pieces, k, v) == [];
    } else {
      var rest := pieces[1..];
      assert WellFormedPieces(rest) by {
        assert forall i :: 0 <= i < |rest| ==> rest[i] == pieces[i + 1];
      }
      ReplacePieces(rest, k, v);
      assert FillKey(pieces, k, v)[1..] == FillKey(rest, k, v);
      match pieces[0]
      case Text(t) =>
        LiteralPrefix(t, Flatten(rest), Placeholder(k), v);
      case Hole(k2) =>
        if k2 == k {
          HoleReplaced(Flatten(rest), k, v);
        } else {
          HoleKept(Flatten(rest), k, k2, v);
        }
    }
  }

  /** Text without '{' is literal text. */
  lemma NoOpenBraceLiteral(t: string)
    requires NoOpenBrace(t)
    ensures Literal(t)
  {
  }

  /** Filling keeps the pieces well formed when the values have no '{'. */
  lemma FilledWellFormed(pieces: seq<Piece>, ps: seq<(string, string)>)
    requires WellFormedPieces(pieces)
    requires forall j :: 0 <= j < |ps| ==> PlainText(ps[j].1)
    ensures WellFormedPieces(Filled(pieces, ps))
  {
    var q := Filled(pieces, ps);
    forall i | 0 <= i < |q| ensures match q[i] case Text(t) => Literal(t) case Hole(k) => BraceFree(k) {
      if pieces[i].Hole? && ValueOf(ps, pieces[i].key).Some? {
        var j :| 0 <= j < |ps| && ps[j] == (pieces[i].key, ValueOf(ps, pieces[i].key).value)
                 && forall l :: 0 <= l < j ==> ps[l].0 != pieces[i].key;
        NoOpenBraceLiteral(ps[j].1);
      }
    }
  }

  /** Filling with one more pair fills the placeholders of its key that are still open. */
  lemma FilledStep(pieces: seq<Piece>, ps: seq<(string, string)>)
    requires ps != []
    ensures Filled(pieces, ps) == FillKey(Filled(pieces, ps[..|ps| - 1]), ps[|ps| - 1].0, ps[|ps| - 1].1)
  {
  }

  /** The `forEach` over a whole template: literal text around and between the placeholders is kept,
      and every placeholder whose key has a pair shows that key's first value; others stay as they
      are. The keys are brace-free and the values free of '{' and '$'. */
  lemma {:induction false} TemplateRendered(pieces: seq<Piece>, ps: seq<(string, string)>)
    requires WellFormedPieces(pieces)
    requires forall j :: 0 <= j < |ps| ==> BraceFree(ps[j].0) && PlainText(ps[j].1)
    ensures Substitute(Flatten(pieces), ps) == Flatten(Filled(pieces, ps))
    decreases |ps|
  {
    if ps == [] {
      assert Filled(pieces, ps) == pieces;
    } else {
      var init := ps[..|ps| - 1];
      assert forall j :: 0 <= j < |init| ==> init[j] == ps[j];
      TemplateRendered(pieces, init);
      RenderedStep(pieces, ps);
    }
  }

  /** One more pair: its key's open placeholders are replaced in the text rendered so far. */
  lemma RenderedStep(pieces: seq<Piece>, ps: seq<(string, string)>)
    requires ps != [] && WellFormedPieces(pieces)
    requires forall j :: 0 <= j < |ps| ==> BraceFree(ps[j].0) && PlainText(ps[j].1)
    requires Substitute(Flatten(pieces), ps[..|ps| - 1]) == Flatten(Filled(pieces, ps[..|ps| - 1]))
    ensures Substitute(Flatten(pieces), ps) == Flatten(Filled(pieces, ps))
  {
    var n := |ps| - 1;
    var init := ps[..n];
    var k, v := ps[n].0, ps[n].1;
    var q := Filled(pieces, init);
    assert WellFormedPieces(q) by {
      assert forall j :: 0 <= j < |init| ==> init[j] == ps[j];
      FilledWellFormed(pieces, init);
    }
    calc {
      Substitute(Flatten(pieces), ps);
      ReplaceAll(Flatten(q), Placeholder(k), v);
      { assert Flatten(q)[0..] == Flatten(q); ReplaceFromLiteral(Flatten(q), 0, Placeholder(k), v); }
      ReplaceLiteral(Flatten(q), Placeholder(k), v);
      { ReplacePieces(q, k, v); }
      Flatten(FillKey(q, k, v));
      { FilledStep(pieces, ps); }
      Flatten(Filled(pieces, ps));
    }
  }

  /** A generated receipt's html: every `{{key}}` of the receipt data in the template shows that
      field, around and between literal text, provided no field value contains '{' or '$'. */
  lemma ReceiptTemplateRendered(pieces: seq<Piece>, d: ReceiptData)
    requires WellFormedPieces(pieces) && PlainFields(d)
    ensures Substitute(Flatten(pieces), Pairs(d)) == Flatten(Filled(pieces, Pairs(d)))
  {
    ReceiptKeysWellFormed();
    TemplateRendered(pieces, Pairs(d));
  }

  /** The substitution loop of `generateReceipt`: each key's placeholder, in turn, is replaced
      throughout the html by the key's value. */
  method SubstituteAll(template: string, keys: seq<(string, string)>) returns (html: string)
    ensures html == Substitute(template, keys)
  {
    html := template;
    var i := 0;
    while i < |keys|
      invariant 0 <= i <= |keys|
      invariant html == Substitute(template, keys[..i])
    {
      assert keys[..i + 1][..i] == keys[..i];
      html := ReplaceAll(html, Placeholder(keys[i].0), keys[i].1);
      i := i + 1;
    }
    assert keys[..i] == keys;
  }

  /** `generateReceipt`: derives the data, then runs the substitution loop over its keys. */
  method GenerateReceipt(template: string, input: ReceiptInput) returns (r: Result<Receipt>)
    ensures r == ReceiptOf(template, input)
  {
    var derived := Derive(input);
    if derived.Err? {
      return Err(derived.error);
    }
    var receiptData := derived.value;
    var html := SubstituteAll(template, Pairs(receiptData));
    return Ok(Receipt(html, receiptData, input.transactionId));
  }

  /** `getReceiptAsJSON`: the generated receipt's id, data and html, in HTML format, stamped with the
      generation time given as text. */
  method GetReceiptAsJSON(template: string, input: ReceiptInput, generatedAt: string) returns (r: Result<ReceiptJson>)
    ensures r.Err? <==> input.amount.None?
    ensures r.Ok? ==> r.value.format == "HTML" && r.value.generatedAt == generatedAt
    ensures r.Ok? ==> r.value.transactionId == input.transactionId
    ensures r.Ok? ==> r.value.receiptData == ReceiptOf(template, input).value.data
    ensures r.Ok? ==> r.value.htmlContent == ReceiptOf(template, input).value.html
  {
    var receipt := GenerateReceipt(template, input);
    if receipt.Err? {
      return Err(receipt.error);
    }
    return Ok(ReceiptJson(receipt.value.transactionId, generatedAt, receipt.value.data, "HTML", receipt.value.html));
  }
}
