/** The keyword analysis used when no provider answers (fallback.go). */
module Keyword {
  import opened Text
  import opened Contract

  const URGENT := ["urgent", "asap", "deadline", "important"]
  const HAPPY := ["happy", "excited", "great", "thanks"]
  const ANGRY := ["angry", "upset", "frustrated", "issue"]

  predicate ContainsAny(text: string, words: seq<string>) {
    exists i :: 0 <= i < |words| && Contains(text, words[i])
  }

  function Analyse(message: string): AnalysisResult {
    var text := ToLower(message);
    var urgent := ContainsAny(text, URGENT);
    var shouted := CountChar(message, '!') >= 2;
    AnalysisResult(
      urgent || shouted,
      if urgent then "high" else if shouted then "medium" else "low",
      "keyword fallback",
      urgent || shouted || CountChar(message, '?') > 0,
      "review",
      if ContainsAny(text, ANGRY) then "negative" else if ContainsAny(text, HAPPY) then "positive" else "neutral",
      0.0, [], 0.3)
  }

  method FallbackAnalysis(message: string) returns (r: AnalysisResult)
    ensures r == Analyse(message)
  {
    var text := ToLower(message);
    var isImportant := ContainsAny(text, URGENT);
    var priority := "low";
    if isImportant {
      priority := "high";
    }
    var sentiment := "neutral";
    if ContainsAny(text, ANGRY) {
      sentiment := "negative";
    } else if ContainsAny(text, HAPPY) {
      sentiment := "positive";
    }
    var exclamations := CountChar(message, '!');
    var questions := CountChar(message, '?');
    if exclamations >= 2 && priority != "high" {
      isImportant := true;
      priority := "medium";
    }
    var hasAction := isImportant || questions > 0;
    r := AnalysisResult(isImportant, priority, "keyword fallback", hasAction, "review", sentiment, 0.0, [], 0.3);
  }

  // The word occurs in the message, in any capitalisation.
  ghost predicate Says(message: string, word: string) {
    exists i :: 0 <= i <= |message| && SaysAt(message, word, i)
  }

  predicate SaysAt(message: string, word: string, i: nat) {
    i + |word| <= |message| && Spells(message[i..i + |word|], word)
  }

  ghost predicate SaysOne(message: string, words: seq<string>) {
    exists i :: 0 <= i < |words| && Says(message, words[i])
  }

  lemma SaysExactly(message: string, word: string)
    requires IsWord(word)
    ensures Contains(ToLower(message), word) <==> Says(message, word)
  {
    hide Spells;
    var text := ToLower(message);
    forall i | 0 <= i <= |message|
      ensures OccursAt(text, word, i) <==> SaysAt(message, word, i)
    {
      if i + |word| <= |message| {
        LowerIsWord(message[i..i + |word|], word);
        assert ToLower(message[i..i + |word|]) == text[i..i + |word|];
      }
    }
  }

  lemma SaysOneExactly(message: string, words: seq<string>)
    requires forall i :: 0 <= i < |words| ==> IsWord(words[i])
    ensures ContainsAny(ToLower(message), words) <==> SaysOne(message, words)
  {
    hide Contains, Says, IsWord;
    forall i | 0 <= i < |words|
      ensures Contains(ToLower(message), words[i]) <==> Says(message, words[i])
    {
      SaysExactly(message, words[i]);
    }
  }

  lemma {:induction false} CountExactly(s: string, c: char)
    ensures CountChar(s, c) >= 1 <==> c in s
    ensures CountChar(s, c) >= 2 <==> exists i, j :: 0 <= i < j < |s| && s[i] == c && s[j] == c
  {
    if s != [] {
      CountExactly(s[..|s| - 1], c);
      assert s == s[..|s| - 1] + [s[|s| - 1]];
    }
  }

  /** What the analysis says: "high" for an urgent word, else "medium" for two exclamation marks; an action
      is needed unless the priority is low and nothing is asked; and an angry word outweighs a happy one. */
  lemma AnalyseExactly(message: string)
    ensures var r := Analyse(message);
            var urgent := SaysOne(message, ["urgent", "asap", "deadline", "important"]);
            var shouted := exists i, j :: 0 <= i < j < |message| && message[i] == '!' && message[j] == '!';
            var angry := SaysOne(message, ["angry", "upset", "frustrated", "issue"]);
            var happy := SaysOne(message, ["happy", "excited", "great", "thanks"]);
            && (r.priority == "high" <==> urgent)
            && (r.priority == "medium" <==> !urgent && shouted)
            && (r.priority == "low" <==> !urgent && !shouted)
            && (r.isImportant <==> urgent || shouted)
            && (r.hasAction <==> urgent || shouted || '?' in message)
            && (r.sentiment == "negative" <==> angry)
            && (r.sentiment == "positive" <==> !angry && happy)
            && (r.sentiment == "neutral" <==> !angry && !happy)
            && r.reason == "keyword fallback" && r.actionRequired == "review" && r.sentimentScore == 0.0
            && r.topics == [] && r.confidence == 0.3
  {
    hide ContainsAny, CountChar, SaysOne;
    SaysOneExactly(message, URGENT);
    SaysOneExactly(message, ANGRY);
    SaysOneExactly(message, HAPPY);
    CountExactly(message, '!');
    CountExactly(message, '?');
    LevelsDiffer();
  }

  lemma LevelsDiffer()
    ensures "high" != "medium" && "high" != "low" && "medium" != "low"
    ensures "negative" != "positive" && "negative" != "neutral" && "positive" != "neutral"
  {
    assert "high"[0] == 'h' && "medium"[0] == 'm' && "low"[0] == 'l';
    assert "negative"[0] == 'n' && "positive"[0] == 'p' && "neutral"[0] == 'n';
    assert "negative"[2] == 'g' && "neutral"[2] == 'u';
  }

  function Severity(priority: string): nat {
    if priority == "high" then 2 else if priority == "medium" then 1 else 0
  }

  lemma WordsInConcatenation(a: string, b: string, words: seq<string>)
    ensures ContainsAny(ToLower(a), words) || ContainsAny(ToLower(b), words) ==> ContainsAny(ToLower(a + b), words)
  {
    assert ToLower(a + b) == ToLower(a) + ToLower(b);
    forall i | 0 <= i < |words| {
      ContainsInConcatenation(ToLower(a), ToLower(b), words[i]);
    }
  }

  /** Adding text never lowers the severity, never loses an action, and keeps a negative sentiment. */
  lemma MonotoneUnderConcatenation(a: string, b: string)
    ensures var whole, left, right := Analyse(a + b), Analyse(a), Analyse(b);
            && Severity(whole.priority) >= Severity(left.priority)
            && Severity(whole.priority) >= Severity(right.priority)
            && (left.hasAction || right.hasAction ==> whole.hasAction)
            && (left.isImportant || right.isImportant ==> whole.isImportant)
            && (left.sentiment == "negative" || right.sentiment == "negative" ==> whole.sentiment == "negative")
  {
    WordsInConcatenation(a, b, URGENT);
    WordsInConcatenation(a, b, ANGRY);
    CountConcatenation(a, b, '!');
    CountConcatenation(a, b, '?');
    hide ContainsAny, CountChar;
  }

  /** A message is important exactly when its priority is not low, and then it needs an action. */
  lemma ImportantIffNotLow(message: string)
    ensures var r := Analyse(message);
            && (r.isImportant <==> r.priority != "low")
            && (r.isImportant ==> r.hasAction)
            && r.priority in ["high", "medium", "low"]
  {
    hide ContainsAny, CountChar;
    assert "high" != "low" && "medium" != "low" by {
      assert "high"[0] == 'h' && "medium"[0] == 'm' && "low"[0] == 'l';
    }
  }
}
