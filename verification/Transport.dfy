/** The serialized cost of a string value and the longest prefix that fits a page budget. */
module Transport {

  /** Bytes of one character inside a JSON string written without ASCII escaping: two for the short
      escapes, six for the other control characters, otherwise its UTF-8 length. */
  function CharCost(c: char): (n: nat)
    ensures 1 <= n <= 6
  {
    var code := c as int;
    if c == '\"' || c == '\\' || code in {8, 9, 10, 12, 13} then 2
    else if code < 0x20 then 6
    else if code < 0x80 then 1
    else if code < 0x800 then 2
    else if code < 0x1_0000 then 3
    else 4
  }

  /** The bytes of a code point in UTF-8. */
  function Utf8(code: int): seq<int> {
    if code < 0x80 then [code]
    else if code < 0x800 then [0xC0 + code / 0x40, 0x80 + code % 0x40]
    else if code < 0x1_0000 then [0xE0 + code / 0x1000, 0x80 + code / 0x40 % 0x40, 0x80 + code % 0x40]
    else [0xF0 + code / 0x4_0000, 0x80 + code / 0x1000 % 0x40, 0x80 + code / 0x40 % 0x40, 0x80 + code % 0x40]
  }

  function HexDigit(d: int): int {
    if d < 10 then '0' as int + d else 'a' as int + d - 10
  }

  /** The bytes of one character inside a JSON string. */
  function JsonBytes(c: char): seq<int> {
    var code := c as int;
    if c == '\"' || c == '\\' then ['\\' as int, code]
    else if code == 8 then ['\\' as int, 'b' as int]
    else if code == 9 then ['\\' as int, 't' as int]
    else if code == 10 then ['\\' as int, 'n' as int]
    else if code == 12 then ['\\' as int, 'f' as int]
    else if code == 13 then ['\\' as int, 'r' as int]
    else if code < 0x20 then ['\\' as int, 'u' as int, '0' as int, '0' as int, HexDigit(code / 16), HexDigit(code % 16)]
    else Utf8(code)
  }

  function JsonText(text: string): seq<int> {
    if text == "" then [] else JsonText(text[..|text| - 1]) + JsonBytes(text[|text| - 1])
  }

  /** `_serialized_content_bytes`: the cost of a text is the sum over its characters. */
  function Cost(text: string): nat {
    if text == "" then 0 else Cost(text[..|text| - 1]) + CharCost(text[|text| - 1])
  }

  /** The cost of a text is the number of bytes that JSON takes for it. */
  lemma {:induction false} CostIsBytes(text: string)
    ensures Cost(text) == |JsonText(text)|
  {
    if text != "" {
      CostIsBytes(text[..|text| - 1]);
    }
  }

  lemma {:induction false} CostAppend(a: string, b: string)
    ensures Cost(a + b) == Cost(a) + Cost(b)
    decreases |b|
  {
    if b == "" {
      assert a + b == a;
    } else {
      assert (a + b)[..|a + b| - 1] == a + b[..|b| - 1];
      CostAppend(a, b[..|b| - 1]);
    }
  }

  /** Longer prefixes cost strictly more. */
  lemma PrefixCost(text: string, i: nat, j: nat)
    requires i <= j <= |text|
    ensures Cost(text[..i]) + (j - i) <= Cost(text[..j])
    decreases j - i
  {
    if i < j {
      assert text[..j][..|text[..j]| - 1] == text[..j - 1];
      PrefixCost(text, i, j - 1);
    }
  }

  /** Linear scan: the length of the longest prefix that fits. */
  function FitFrom(text: string, k: nat, budget: nat): (r: nat)
    requires k <= |text| && Cost(text[..k]) <= budget
    ensures k <= r <= |text| && Cost(text[..r]) <= budget
    ensures r < |text| ==> budget < Cost(text[..r + 1])
    decreases |text| - k
  {
    if k < |text| && Cost(text[..k + 1]) <= budget then FitFrom(text, k + 1, budget) else k
  }

  function Fit(text: string, budget: nat): (r: nat)
    ensures r <= |text| && Cost(text[..r]) <= budget
    ensures r < |text| ==> budget < Cost(text[..r + 1])
  {
    FitFrom(text, 0, budget)
  }

  /** A prefix fits exactly when it is no longer than the longest one. */
  lemma FitIsLongest(text: string, budget: nat, k: nat)
    requires k <= |text|
    ensures Cost(text[..k]) <= budget <==> k <= Fit(text, budget)
  {
    if k <= Fit(text, budget) {
      PrefixCost(text, k, Fit(text, budget));
    } else {
      PrefixCost(text, Fit(text, budget) + 1, k);
    }
  }

  /** Nothing fits exactly when the first character alone is too expensive. */
  lemma FitNothing(text: string, budget: nat)
    requires text != ""
    ensures Fit(text, budget) == 0 <==> budget < CharCost(text[0])
  {
    FitIsLongest(text, budget, 1);
    assert text[..1] == [text[0]];
    assert [text[0]][..0] == "";
    assert Cost(text[..1]) == CharCost(text[0]);
  }

  /** `_prefix_within_transport_budget`: the binary search finds the longest prefix. */
  method PrefixWithinTransportBudget(text: string, budget: nat) returns (best: string)
    ensures best == text[..Fit(text, budget)]
    ensures Cost(best) <= budget && (|best| < |text| ==> budget < Cost(text[..|best| + 1]))
  {
    if text == "" || budget <= 0 {
      best := "";
      if text != "" {
        FitNothing(text, budget);
      }
      return;
    }
    if Cost(text) <= budget {
      best := text;
      assert text == text[..|text|];
      FitIsLongest(text, budget, |text|);
      return;
    }
    var low, high := 1, |text|;
    best := "";
    assert text[..|text|] == text;
    FitIsLongest(text, budget, |text|);
    while low <= high
      invariant 1 <= low <= high + 1 <= |text| + 1
      invariant best == text[..low - 1] && low - 1 <= Fit(text, budget) <= high
    {
      var middle := (low + high) / 2;
      var candidate := text[..middle];
      FitIsLongest(text, budget, middle);
      if Cost(candidate) <= budget {
        best := candidate;
        low := middle + 1;
      } else {
        high := middle - 1;
      }
    }
  }
}
