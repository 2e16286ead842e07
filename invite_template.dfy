/**
 * The invitation template's placeholders (`src/components/RSVPInviteForm.tsx`):
 * the global scan with the regular expression `/{{(.*?)}}/g`, the check of the
 * names found against the CSV headers, the normalisation of those headers and
 * the mandatory-field rule of the invitation form.
 */
module InviteTemplate {
  import opened Wrappers
  import opened JsText
  import opened FormFields

  /** `{{` starts at position `k`. */
  predicate IsOpener(text: string, k: int) {
    0 <= k && k + 2 <= |text| && text[k] == '{' && text[k + 1] == '{'
  }

  /** `}}` starts at position `k`. */
  predicate IsCloser(text: string, k: int) {
    0 <= k && k + 2 <= |text| && text[k] == '}' && text[k + 1] == '}'
  }

  /** No line terminator lies in `text[a..b]`, so `.*` can span it. */
  predicate NoBreak(text: string, a: int, b: int)
    requires 0 <= a <= b <= |text|
  {
    forall i :: a <= i < b ==> !IsLineTerminator(text[i])
  }

  /**
   * The lazy `(.*?)}}` part of the expression, tried from position `j`: the
   * nearest `}}` at or after `j` that no line terminator separates from `j`.
   */
  function CloseFrom(text: string, j: nat): (r: Option<nat>)
    requires j <= |text|
    ensures r.Some? ==> j <= r.value && IsCloser(text, r.value) && NoBreak(text, j, r.value)
    ensures r.Some? ==> forall k :: j <= k < r.value ==> !IsCloser(text, k)
    ensures r.None? ==> forall k :: j <= k <= |text| && NoBreak(text, j, k) ==> !IsCloser(text, k)
    decreases |text| - j
  {
    if j + 2 > |text| then None
    else if text[j] == '}' && text[j + 1] == '}' then Some(j)
    else if IsLineTerminator(text[j]) then None
    else CloseFrom(text, j + 1)
  }

  /** The position of the closing `}}` of a match that starts at `i`, if the expression matches there. */
  function MatchAt(text: string, i: nat): Option<nat>
    requires i <= |text|
  {
    if IsOpener(text, i) then CloseFrom(text, i + 2) else None
  }

  /** A match: `{{` at `start`, the capture `text[start + 2..close]`, `}}` at `close`. */
  datatype Found = Found(start: nat, close: nat)

  /** `regex.exec(text)` with `lastIndex == from`: the leftmost match at or after `from`. */
  function Exec(text: string, from: nat): (r: Option<Found>)
    requires from <= |text|
    ensures r.Some? ==> from <= r.value.start && r.value.start + 2 <= r.value.close
                        && r.value.close + 2 <= |text|
                        && MatchAt(text, r.value.start) == Some(r.value.close)
    decreases |text| - from
  {
    if from == |text| then None
    else
      match MatchAt(text, from)
      case Some(c) => Some(Found(from, c))
      case None => Exec(text, from + 1)
  }

  /** `exec` finds the leftmost match: none starts between `from` and the one it returns, and none at all when it fails. */
  lemma {:induction false} ExecLeftmost(text: string, from: nat)
    requires from <= |text|
    ensures Exec(text, from).Some? ==> forall i :: from <= i < Exec(text, from).value.start ==> MatchAt(text, i).None?
    ensures Exec(text, from).None? ==> forall i :: from <= i <= |text| ==> MatchAt(text, i).None?
    decreases |text| - from
  {
    if from < |text| && MatchAt(text, from).None? {
      ExecLeftmost(text, from + 1);
    }
  }

  /** The captures of all matches from `from` on, each search resuming after the previous match. */
  function ScanFrom(text: string, from: nat): seq<string>
    requires from <= |text|
    decreases |text| - from
  {
    match Exec(text, from)
    case None => []
    case Some(m) => [text[m.start + 2..m.close]] + ScanFrom(text, m.close + 2)
  }

  /** The placeholder names of a template, in the order they occur. */
  function Placeholders(text: string): seq<string> {
    ScanFrom(text, 0)
  }

  /**
   * `extractPlaceholders`: run `exec` until it fails, pushing each capture
   * (src/components/RSVPInviteForm.tsx:30-38).
   */
  method ExtractPlaceholders(text: string) returns (matches: seq<string>)
    ensures matches == Placeholders(text)
  {
    matches := [];
    var lastIndex := 0;
    var m := Exec(text, lastIndex);
    ghost var all := Placeholders(text);
    while m.Some?
      invariant lastIndex <= |text|
      invariant m == Exec(text, lastIndex)
      invariant matches + ScanFrom(text, lastIndex) == all
      decreases |text| - lastIndex
    {
      var found := m.value;
      ScanStep(text, lastIndex, found, matches);
      matches := matches + [text[found.start + 2..found.close]];
      lastIndex := found.close + 2;
      m := Exec(text, lastIndex);
    }
    assert ScanFrom(text, lastIndex) == [];
  }

  /** One turn of the loop: pushing the capture moves it from the scan still to come onto the list. */
  lemma ScanStep(text: string, from: nat, m: Found, matches: seq<string>)
    requires from <= |text| && Exec(text, from) == Some(m)
    ensures m.close + 2 <= |text|
    ensures (matches + [text[m.start + 2..m.close]]) + ScanFrom(text, m.close + 2) == matches + ScanFrom(text, from)
  {
    ScanFromUnfold(text, from, m);
    var capture := text[m.start + 2..m.close];
    assert (matches + [capture]) + ScanFrom(text, m.close + 2) == matches + ([capture] + ScanFrom(text, m.close + 2));
  }

  /** Positions without `{{` are passed over: the search resumes at the next one. */
  lemma {:induction false} ExecSkipsNonOpeners(text: string, from: nat, to: nat)
    requires from <= to <= |text|
    requires forall i :: from <= i < to ==> !IsOpener(text, i)
    ensures Exec(text, from) == Exec(text, to)
    decreases |text| - from
  {
    if from < to {
      ExecSkipsNonOpeners(text, from + 1, to);
    }
  }
  /** Conversely to `CloseFrom`'s contract: an unbroken run up to the first `}}` is always found. */
  lemma {:induction false} CloseFromFindsNearest(text: string, j: nat, c: nat)
    requires j <= c && IsCloser(text, c) && NoBreak(text, j, c)
    requires forall k :: j <= k < c ==> !IsCloser(text, k)
    ensures CloseFrom(text, j) == Some(c)
    decreases c - j
  {
    if j < c {
      CloseFromFindsNearest(text, j + 1, c);
    }
  }
  /** One step of the scan: a match contributes its capture, and the search resumes after its `}}`. */
  lemma ScanFromUnfold(text: string, from: nat, m: Found)
    requires from <= |text| && Exec(text, from) == Some(m)
    ensures ScanFrom(text, from) == [text[m.start + 2..m.close]] + ScanFrom(text, m.close + 2)
  {
  }
  /** A name can come out of the scan: it has no line terminator and no `}}` inside. */
  predicate IsPlaceholderName(p: string) {
    && (forall i :: 0 <= i < |p| ==> !IsLineTerminator(p[i]))
    && (forall i :: 0 <= i < |p| - 1 ==> !(p[i] == '}' && p[i + 1] == '}'))
  }

  /** Every name found is a possible name and occurs in the text wrapped in `{{` and `}}`. */
  lemma {:induction false} ScanFromShape(text: string, from: nat)
    requires from <= |text|
    ensures forall k :: 0 <= k < |ScanFrom(text, from)| ==>
      IsPlaceholderName(ScanFrom(text, from)[k]) && Contains(text, "{{" + ScanFrom(text, from)[k] + "}}")
    decreases |text| - from
  {
    match Exec(text, from)
    case None =>
    case Some(m) =>
      var p := text[m.start + 2..m.close];
      ScanFromShape(text, m.close + 2);
      forall i | 0 <= i < |p| - 1 ensures !(p[i] == '}' && p[i + 1] == '}') {
        assert !IsCloser(text, m.start + 2 + i);
      }
      assert text[m.start..m.close + 2] == "{{" + p + "}}";
      assert OccursAt(text, "{{" + p + "}}", m.start);
  }

  lemma PlaceholderShape(text: string)
    ensures forall p :: p in Placeholders(text) ==> IsPlaceholderName(p) && Contains(text, "{{" + p + "}}")
  {
    ScanFromShape(text, 0);
  }

  /** A complete pair: `{{` at `i`, `}}` at `k` after it, and no line terminator between them. */
  ghost predicate HasPair(text: string) {
    exists i, k :: IsOpener(text, i) && i + 2 <= k && IsCloser(text, k) && NoBreak(text, i + 2, k)
  }

  /** The scan finds nothing exactly when the template holds no complete `{{…}}` pair. */
  lemma NoPlaceholdersIff(text: string)
    ensures Placeholders(text) == [] <==> !HasPair(text)
  {
    if HasPair(text) {
      var i, k :| IsOpener(text, i) && i + 2 <= k && IsCloser(text, k) && NoBreak(text, i + 2, k);
      assert MatchAt(text, i).Some?;
      ExecLeftmost(text, 0);
      assert Exec(text, 0).Some?;
    }
  }

  /** The sub-list of `ps` that are not among `headers`, in order (`placeholders.filter(p => !csvHeaders.includes(p))`). */
  function Invalid(ps: seq<string>, headers: seq<string>): (r: seq<string>)
    ensures |r| <= |ps|
    ensures forall x :: x in r <==> x in ps && x !in headers
    ensures r == [] <==> forall p :: p in ps ==> p in headers
  {
    if ps == [] then []
    else if ps[0] in headers then Invalid(ps[1..], headers)
    else [ps[0]] + Invalid(ps[1..], headers)
  }

  /** Filtering keeps order: it distributes over concatenation. */
  lemma {:induction false} InvalidAppend(a: seq<string>, b: seq<string>, headers: seq<string>)
    ensures Invalid(a + b, headers) == Invalid(a, headers) + Invalid(b, headers)
  {
    if a != [] {
      assert (a + b)[0] == a[0] && (a + b)[1..] == a[1..] + b;
      InvalidAppend(a[1..], b, headers);
    } else {
      assert a + b == b;
    }
  }

  /** `validateTemplate`'s result. */
  datatype Validation = Validation(placeholders: seq<string>, invalid: seq<string>)

  /** `validateTemplate(template)` against the current headers (src/components/RSVPInviteForm.tsx:40-47). */
  function ValidateTemplate(template: string, headers: seq<string>): (v: Validation)
    ensures v.placeholders == Placeholders(template)
    ensures forall x :: x in v.invalid <==> x in Placeholders(template) && x !in headers
  {
    var ps := Placeholders(template);
    Validation(ps, Invalid(ps, headers))
  }

  /** The "parameters valid" flag: no placeholder names a missing header. */
  function ParametersValid(template: string, headers: seq<string>): (ok: bool)
    ensures ok <==> forall p :: p in Placeholders(template) ==> p in headers
  {
    |ValidateTemplate(template, headers).invalid| == 0
  }

  /** The non-empty strings of `xs`, in order (`.filter(Boolean)` on strings). */
  function NonEmpty(xs: seq<string>): (r: seq<string>)
    ensures |r| <= |xs|
    ensures forall x :: x in r <==> x in xs && x != ""
  {
    if xs == [] then []
    else if xs[0] == "" then NonEmpty(xs[1..])
    else [xs[0]] + NonEmpty(xs[1..])
  }

  lemma {:induction false} NonEmptyAppend(a: seq<string>, b: seq<string>)
    ensures NonEmpty(a + b) == NonEmpty(a) + NonEmpty(b)
  {
    if a != [] {
      assert (a + b)[0] == a[0] && (a + b)[1..] == a[1..] + b;
      NonEmptyAppend(a[1..], b);
    } else {
      assert a + b == b;
    }
  }

  function TrimAll(xs: seq<string>): (r: seq<string>)
    ensures |r| == |xs| && forall i :: 0 <= i < |xs| ==> r[i] == Trim(xs[i])
  {
    seq(|xs|, i requires 0 <= i < |xs| => Trim(xs[i]))
  }

  /**
   * The headers kept from the parser's `meta.fields` (absent means none):
   * trimmed, blank ones dropped, order kept (src/components/RSVPInviteForm.tsx:54-55).
   */
  function NormalizeHeaders(fields: Option<seq<string>>): (r: seq<string>)
    ensures forall h :: h in r <==> h != "" && h in TrimAll(fields.GetOr([]))
    ensures forall h :: h in r ==> Trim(h) == h
  {
    var r := NonEmpty(TrimAll(fields.GetOr([])));
    forall h | h in r ensures Trim(h) == h {
      var i :| 0 <= i < |fields.GetOr([])| && h == Trim(fields.GetOr([])[i]);
      TrimIdempotent(fields.GetOr([])[i]);
    }
    r
  }

  /** Headers from consecutive field lists normalise to consecutive header lists. */
  lemma NormalizeHeadersKeepsOrder(a: seq<string>, b: seq<string>)
    ensures NormalizeHeaders(Some(a + b)) == NormalizeHeaders(Some(a)) + NormalizeHeaders(Some(b))
  {
    assert TrimAll(a + b) == TrimAll(a) + TrimAll(b);
    NonEmptyAppend(TrimAll(a), TrimAll(b));
  }

  /** The invitation form's mandatory fields. */
  const InviteMandatoryFields := ["csv", "template", "inviteType"]

  /** `checkMandatoryFields` of the invitation form: true when the form may not be sent (src/components/RSVPInviteForm.tsx:61-70). */
  function InviteFormIncomplete(values: FormValues): (r: bool)
    ensures r <==> IsEmptyValue(ValueOf(values, "csv")) || IsEmptyValue(ValueOf(values, "template"))
                   || IsEmptyValue(ValueOf(values, "inviteType"))
  {
    var fields := InviteMandatoryFields;
    assert fields[0] == "csv" && fields[1] == "template" && fields[2] == "inviteType";
    HasEmptyFields(values, fields)
  }

  /** `form.getFieldValue("template") || ""`: the template text the effect validates. */
  function TemplateText(values: FormValues): string {
    match ValueOf(values, "template")
    case Text(s) => s
    case _ => ""
  }

  // Worked examples: the greeting template against the headers `name` and `phone`,
  // an empty name, a repeated name, and a pair broken by a line terminator.
  // Each step is a lemma of its own so that the solver sees one literal at a time.

  const Greeting := "Hi {{name}}, see you {{when}}"

  lemma GreetingSkipToFirst()
    ensures Exec(Greeting, 0) == Exec(Greeting, 3)
  {
    ExecSkipsNonOpeners(Greeting, 0, 3);
  }

  lemma GreetingFirstClose()
    ensures CloseFrom(Greeting, 5) == Some(9)
  {
    CloseFromFindsNearest(Greeting, 5, 9);
  }

  lemma GreetingFirstMatchAt()
    ensures Exec(Greeting, 3) == Some(Found(3, 9))
  {
    GreetingFirstClose();
    assert IsOpener(Greeting, 3);
  }

  lemma GreetingFirstMatch()
    ensures Exec(Greeting, 0) == Some(Found(3, 9))
  {
    GreetingSkipToFirst();
    GreetingFirstMatchAt();
  }

  lemma GreetingSkipToSecond()
    ensures Exec(Greeting, 11) == Exec(Greeting, 21)
  {
    ExecSkipsNonOpeners(Greeting, 11, 21);
  }

  lemma GreetingSecondClose()
    ensures CloseFrom(Greeting, 23) == Some(27)
  {
    CloseFromFindsNearest(Greeting, 23, 27);
  }

  lemma GreetingSecondMatchAt()
    ensures Exec(Greeting, 21) == Some(Found(21, 27))
  {
    GreetingSecondClose();
    assert IsOpener(Greeting, 21);
  }

  lemma GreetingSecondMatch()
    ensures Exec(Greeting, 11) == Some(Found(21, 27))
  {
    GreetingSkipToSecond();
    GreetingSecondMatchAt();
  }

  lemma GreetingSecondName()
    ensures ScanFrom(Greeting, 11) == ["when"]
  {
    GreetingSecondMatch();
    ScanFromUnfold(Greeting, 11, Found(21, 27));
    assert ScanFrom(Greeting, 29) == [];
    assert Greeting[23..27] == "when";
  }

  lemma GreetingNameSlice()
    ensures Greeting[5..9] == "name"
  {
    assert Greeting[5] == 'n';
    assert Greeting[6] == 'a';
    assert Greeting[7] == 'm';
    assert Greeting[8] == 'e';
  }

  lemma GreetingFirstName()
    ensures ScanFrom(Greeting, 0) == ["name"] + ScanFrom(Greeting, 11)
  {
    GreetingFirstMatch();
    GreetingNameSlice();
    ScanFromUnfold(Greeting, 0, Found(3, 9));
  }

  /** `"Hi {{name}}, see you {{when}}"` yields `name` then `when`. */
  lemma GreetingPlaceholders()
    ensures Placeholders(Greeting) == ["name", "when"]
  {
    GreetingFirstName();
    GreetingSecondName();
  }

  /** Against the headers `name` and `phone`, only `when` is invalid, so the parameters are not valid. */
  lemma GreetingValidation()
    ensures ValidateTemplate(Greeting, ["name", "phone"]).invalid == ["when"]
    ensures !ParametersValid(Greeting, ["name", "phone"])
  {
    GreetingPlaceholders();
  }

  /** `{{}}` yields one empty name. */
  lemma EmptyNameExample()
    ensures Placeholders("{{}}") == [""]
  {
    CloseFromFindsNearest("{{}}", 2, 2);
    assert IsOpener("{{}}", 0);
    ScanFromUnfold("{{}}", 0, Found(0, 2));
    assert ScanFrom("{{}}", 4) == [];
    assert "{{}}"[2..2] == "";
  }

  /** A repeated name is reported each time it occurs. */
  lemma DuplicatesKeptExample()
    ensures Placeholders("{{a}}{{a}}") == ["a", "a"]
  {
    var t := "{{a}}{{a}}";
    CloseFromFindsNearest(t, 2, 3);
    CloseFromFindsNearest(t, 7, 8);
    assert IsOpener(t, 0) && IsOpener(t, 5);
    ScanFromUnfold(t, 0, Found(0, 3));
    ScanFromUnfold(t, 5, Found(5, 8));
    assert t[2..3] == "a" && t[7..8] == "a";
  }

  /** `.` does not match a line break, so a pair split by one is no placeholder. */
  lemma LineBreakStopsExample()
    ensures Placeholders("{{a\n}}") == []
  {
  }
}
