/**
 * Spreadsheet column letters: the bijective base-26 numbering A=1, ..., Z=26,
 * AA=27, ... used by openpyxl's `column_index_from_string` and
 * `get_column_letter` and by the data loader's own conversion loop.
 */
module Columns {
  import opened Wrappers
  import opened Text

  function LetterValue(c: char): nat
    requires IsUpper(c)
  {
    c as int - 'A' as int + 1
  }

  function LetterOf(d: nat): (c: char)
    requires 1 <= d <= 26
    ensures IsUpper(c) && LetterValue(c) == d
  {
    ('A' as int + d - 1) as char
  }

  /** The number a run of upper-case letters stands for. */
  function ColumnValue(s: string): nat
    requires forall i :: 0 <= i < |s| ==> IsUpper(s[i])
  {
    if s == [] then 0 else 26 * ColumnValue(s[..|s| - 1]) + LetterValue(s[|s| - 1])
  }

  /** `get_column_letter(n)`. */
  function ColumnLetters(n: nat): (s: string)
    requires n >= 1
    ensures AllUpper(s)
    decreases n
  {
    if n <= 26 then [LetterOf(n)]
    else ColumnLetters((n - 1) / 26) + [LetterOf((n - 1) % 26 + 1)]
  }

  /** openpyxl's `column_index_from_string`: one to three letters, any case; anything else raises ValueError. */
  function ColumnIndex(s: string): (r: Option<nat>)
    ensures r.Some? <==> 1 <= |s| <= 3 && AllUpper(UpperStr(s))
    ensures r.Some? ==> 1 <= r.value <= 18278
  {
    var u := UpperStr(s);
    if 1 <= |u| <= 3 && AllUpper(u) then
      ColumnValueBounds(u);
      Some(ColumnValue(u))
    else None
  }

  lemma {:induction false} ColumnValueBounds(s: string)
    requires AllUpper(s)
    ensures 1 <= ColumnValue(s)
    ensures |s| <= 1 ==> ColumnValue(s) <= 26
    ensures |s| <= 2 ==> ColumnValue(s) <= 702
    ensures |s| <= 3 ==> ColumnValue(s) <= 18278
  {
    if |s| > 1 {
      ColumnValueBounds(s[..|s| - 1]);
    }
  }

  lemma {:induction false} ValueOfLetters(n: nat)
    requires n >= 1
    ensures ColumnValue(ColumnLetters(n)) == n
    decreases n
  {
    if n > 26 {
      var s := ColumnLetters(n);
      ValueOfLetters((n - 1) / 26);
      assert s[..|s| - 1] == ColumnLetters((n - 1) / 26);
    }
  }

  lemma {:induction false} LettersOfValue(s: string)
    requires AllUpper(s)
    ensures ColumnLetters(ColumnValue(s)) == s
  {
    var t := s[..|s| - 1];
    var d := LetterValue(s[|s| - 1]);
    if t != [] {
      ColumnValueBounds(t);
      LettersOfValue(t);
      assert (ColumnValue(s) - 1) / 26 == ColumnValue(t);
      assert (ColumnValue(s) - 1) % 26 + 1 == d;
      assert s == t + [s[|s| - 1]];
    } else {
      assert s == [s[0]];
    }
  }

  /** Distinct letter strings name distinct columns. */
  lemma ColumnValueInjective(s: string, t: string)
    requires AllUpper(s) && AllUpper(t) && ColumnValue(s) == ColumnValue(t)
    ensures s == t
  {
    LettersOfValue(s);
    LettersOfValue(t);
  }

  /** `get_column_letter(n)` has at most three letters for the columns openpyxl knows. */
  lemma {:induction false} LettersLength(n: nat)
    requires 1 <= n <= 18278
    ensures n <= 26 ==> |ColumnLetters(n)| == 1
    ensures n <= 702 ==> |ColumnLetters(n)| <= 2
    ensures |ColumnLetters(n)| <= 3
    decreases n
  {
    if n > 26 {
      LettersLength((n - 1) / 26);
    }
  }

  /** `column_index_from_string(get_column_letter(n)) == n` for every column openpyxl knows. */
  lemma IndexOfLetters(n: nat)
    requires 1 <= n <= 18278
    ensures ColumnIndex(ColumnLetters(n)) == Some(n)
  {
    var s := ColumnLetters(n);
    LettersLength(n);
    assert UpperStr(s) == s;
    ValueOfLetters(n);
  }
}
