/**
 * The column selection of the data loader: a requested column written as
 * spreadsheet letters becomes its zero-based position, anything else is
 * kept as a column name. Reading files is not modelled.
 */
module DataLoader {
  import opened Text
  import opened Columns

  /** An entry of `usecols`: a zero-based position or a column name. */
  datatype UseCol = Index(i: int) | Name(name: string)

  /** `col.isalpha() and col.isupper()`, on ASCII letters. */
  predicate IsColumnLetters(col: string)
  {
    AllUpper(col)
  }

  /** The entry one requested column becomes. */
  function Converted(col: string): (u: UseCol)
    ensures u.Index? <==> IsColumnLetters(col)
    ensures u.Name? ==> u.name == col
    ensures u.Index? ==> u.i >= 0
  {
    if IsColumnLetters(col) then
      ColumnValueBounds(col);
      Index(ColumnValue(col) - 1)
    else Name(col)
  }

  /** `_convert_column_letters_to_indices(columns)`. */
  method ConvertColumnLettersToIndices(columns: seq<string>) returns (result: seq<UseCol>)
    ensures |result| == |columns|
    ensures forall k :: 0 <= k < |columns| ==> result[k] == Converted(columns[k])
  {
    result := [];
    for k := 0 to |columns|
      invariant |result| == k
      invariant forall m :: 0 <= m < k ==> result[m] == Converted(columns[m])
    {
      var col := columns[k];
      if IsColumnLetters(col) {
        var index := 0;
        for j := 0 to |col|
          invariant index == ColumnValue(col[..j])
        {
          assert col[..j + 1][..j] == col[..j];
          index := index * 26 + (col[j] as int - 'A' as int + 1);
        }
        assert col[..|col|] == col;
        result := result + [Index(index - 1)];
      } else {
        result := result + [Name(col)];
      }
    }
  }

  /** Single letters: A is column 0 and Z is column 25; AA follows as 26. */
  lemma ConvertedExamples()
    ensures Converted("A") == Index(0)
    ensures Converted("Z") == Index(25)
    ensures Converted("AA") == Index(26)
    ensures Converted("AZ") == Index(51)
    ensures Converted("Valor") == Name("Valor")
  {
    assert "AA"[..1] == "A" && "AZ"[..1] == "A";
    assert "A"[..0] == "" && "Z"[..0] == "";
    assert !IsUpper("Valor"[1]);
  }

  /** Different letter columns never share a position. */
  lemma ConvertedInjective(s: string, t: string)
    requires IsColumnLetters(s) && IsColumnLetters(t) && s != t
    ensures Converted(s) != Converted(t)
  {
    if Converted(s) == Converted(t) {
      ColumnValueInjective(s, t);
    }
  }

  /** The letters of the `n`-th column (1-based) convert to position `n - 1`: the conversion inverts the column naming. */
  lemma ConvertedLetters(n: nat)
    requires n >= 1
    ensures Converted(ColumnLetters(n)) == Index(n - 1)
  {
    ValueOfLetters(n);
  }

  /** Every position is reached: position `p` is the conversion of the letters of column `p + 1`. */
  lemma ConvertedOnto(p: nat)
    ensures exists s :: IsColumnLetters(s) && Converted(s) == Index(p)
  {
    ConvertedLetters(p + 1);
  }
}
