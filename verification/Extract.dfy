/** extractJSON of providers/helpers.go: the text from the first opening to the last closing bracket. */
module Extract {
  const OPENERS := "{["
  const CLOSERS := "}]"

  // strings.IndexAny: the first position of a character of the set, or the length if there is none.
  function IndexAny(s: string, chars: string): (i: nat)
    ensures i <= |s| && (i < |s| ==> s[i] in chars)
    ensures forall j :: 0 <= j < i ==> s[j] !in chars
  {
    if s == "" || s[0] in chars then 0 else 1 + IndexAny(s[1..], chars)
  }

  // strings.LastIndexAny, or -1.
  function LastIndexAny(s: string, chars: string): (i: int)
    ensures -1 <= i < |s| && (i >= 0 ==> s[i] in chars)
    ensures forall j :: i < j < |s| ==> s[j] !in chars
  {
    if s == "" then -1
    else if s[|s| - 1] in chars then |s| - 1
    else LastIndexAny(s[..|s| - 1], chars)
  }

  function ExtractJSON(text: string): string {
    var start, end := IndexAny(text, OPENERS), LastIndexAny(text, CLOSERS);
    if start == |text| || end == -1 || end <= start then text else text[start..end + 1]
  }

  /** Prose around a bracketed body is removed, whatever the body contains. */
  lemma UnwrapsBody(prefix: string, body: string, suffix: string)
    requires forall i :: 0 <= i < |prefix| ==> prefix[i] !in "{["
    requires forall i :: 0 <= i < |suffix| ==> suffix[i] !in "}]"
    requires |body| >= 2 && body[0] in "{[" && body[|body| - 1] in "}]"
    ensures ExtractJSON(prefix + body + suffix) == body
  {
    var text := prefix + body + suffix;
    var start, end := IndexAny(text, OPENERS), LastIndexAny(text, CLOSERS);
    assert text[|prefix|] == body[0] && text[|prefix| + |body| - 1] == body[|body| - 1];
    assert forall j :: 0 <= j < |prefix| ==> text[j] == prefix[j];
    assert forall j :: |prefix| + |body| <= j < |text| ==> text[j] == suffix[j - |prefix| - |body|];
    assert start == |prefix| && end == |prefix| + |body| - 1;
    assert text[start..end + 1] == body;
  }

  /** Either nothing is bracketed and the text stays whole, or it splits into prose, body and prose. */
  lemma ExtractSplits(text: string) returns (prefix: string, suffix: string)
    ensures text == prefix + ExtractJSON(text) + suffix
    ensures ExtractJSON(text) != text ==>
              && (forall i :: 0 <= i < |prefix| ==> prefix[i] !in OPENERS)
              && (forall i :: 0 <= i < |suffix| ==> suffix[i] !in CLOSERS)
              && |ExtractJSON(text)| >= 2 && ExtractJSON(text)[0] in OPENERS &&
                  ExtractJSON(text)[|ExtractJSON(text)| - 1] in CLOSERS
  {
    hide IndexAny, LastIndexAny;
    var start, end := IndexAny(text, OPENERS), LastIndexAny(text, CLOSERS);
    prefix, suffix := "", "";
    if start < |text| && end != -1 && start < end {
      prefix, suffix := text[..start], text[end + 1..];
      CutSplits(text, start, end + 1);
    }
  }

  lemma CutSplits(text: string, a: nat, b: nat)
    requires a < b <= |text|
    ensures text == text[..a] + text[a..b] + text[b..]
    ensures text[a..b][0] == text[a] && text[a..b][|text[a..b]| - 1] == text[b - 1]
    ensures forall i :: 0 <= i < |text[b..]| ==> text[b..][i] == text[b + i]
  {
  }

  /** Extracting again changes nothing. */
  lemma Idempotent(text: string)
    ensures ExtractJSON(ExtractJSON(text)) == ExtractJSON(text)
  {
    hide ExtractJSON;
    var prefix, suffix := ExtractSplits(text);
    var body := ExtractJSON(text);
    if body != text {
      UnwrapsBody("", body, "");
      assert "" + body + "" == body;
    }
  }
}
