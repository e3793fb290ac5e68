/** How the verification agent decides, from the text it extracted from the
    remote page, whether the credential is validated: the keyword list of its
    configuration and the case-insensitive match against it. */
module Classification {
  import opened Text

  /** The configured keywords, matched case-insensitively. */
  const Keywords: seq<string> := ["es egresado de la institución", "Datos del Egresado", "egresado"]

  /** What the body fallback returns when the page shows no result. */
  const NoResultSentinel: string := "Nenhum resultado encontrado"

  datatype Status = Validado | NaoValidado

  /** The status as it appears in the result record. */
  function StatusText(s: Status): string
  {
    match s
    case Validado => "VALIDADO"
    case NaoValidado => "NAO_VALIDADO"
  }

  /** `kws.some(k => upper.includes(k.toUpperCase()))`. */
  function SomeKeyword(upper: string, kws: seq<string>): bool
  {
    if kws == [] then false
    else Contains(upper, Upper(kws[0])) || SomeKeyword(upper, kws[1..])
  }

  /** The scan finds a keyword exactly when one of them, upper-cased, occurs
      in the text. */
  lemma {:induction false} SomeKeywordFinds(upper: string, kws: seq<string>)
    ensures SomeKeyword(upper, kws) <==> exists j :: 0 <= j < |kws| && Contains(upper, Upper(kws[j]))
  {
    if kws != [] {
      SomeKeywordFinds(upper, kws[1..]);
      assert forall j :: 1 <= j < |kws| ==> kws[j] == kws[1..][j - 1];
      if exists j :: 0 <= j < |kws| && Contains(upper, Upper(kws[j])) {
        var j :| 0 <= j < |kws| && Contains(upper, Upper(kws[j]));
        if j > 0 {
          assert Contains(upper, Upper(kws[1..][j - 1]));
        }
      }
    }
  }

  /** The status of an extracted text: the keyword scan over its upper-cased
      form. */
  function Classify(text: string): Status
  {
    if SomeKeyword(Upper(text), Keywords) then Validado else NaoValidado
  }

  /** `VALIDADO` exactly when the upper-cased text contains some upper-cased
      keyword. */
  lemma ClassifyFindsKeyword(text: string)
    ensures Classify(text) == Validado <==> exists k :: k in Keywords && Contains(Upper(text), Upper(k))
  {
    SomeKeywordFinds(Upper(text), Keywords);
    if exists k :: k in Keywords && Contains(Upper(text), Upper(k)) {
      var k :| k in Keywords && Contains(Upper(text), Upper(k));
      var j :| 0 <= j < |Keywords| && Keywords[j] == k;
    }
  }

  lemma UpperEgresado()
    ensures Upper("egresado") == "EGRESADO"
    ensures Upper("Egresado") == "EGRESADO"
  {
  }

  /** The first keyword, around the word `egresado` it contains. */
  lemma FirstKeywordParts()
    ensures Keywords[0] == "es " + "egresado" + " de la institución"
  {
  }

  /** The second keyword, around the word `Egresado` it contains. */
  lemma SecondKeywordParts()
    ensures Keywords[1] == "Datos del " + "Egresado" + ""
  {
  }

  lemma FirstKeywordContainsEgresado()
    ensures Contains(Upper(Keywords[0]), "EGRESADO")
  {
    FirstKeywordParts();
    ContainsMiddle("es ", "egresado", " de la institución");
    ContainsUpper(Keywords[0], "egresado");
    UpperEgresado();
  }

  lemma SecondKeywordContainsEgresado()
    ensures Contains(Upper(Keywords[1]), "EGRESADO")
  {
    SecondKeywordParts();
    ContainsMiddle("Datos del ", "Egresado", "");
    ContainsUpper(Keywords[1], "Egresado");
    UpperEgresado();
  }

  /** Every keyword contains `EGRESADO` once upper-cased, and the last keyword
      is exactly that word. */
  lemma KeywordsContainEgresado()
    ensures forall k :: k in Keywords ==> Contains(Upper(k), "EGRESADO")
    ensures Upper(Keywords[2]) == "EGRESADO"
  {
    FirstKeywordContainsEgresado();
    SecondKeywordContainsEgresado();
    UpperEgresado();
    ContainsMiddle("", "EGRESADO", "");
    assert "" + "EGRESADO" + "" == "EGRESADO";
  }

  /** Because `egresado` occurs in the other two keywords, the keyword list
      classifies exactly as the single word `EGRESADO` would. */
  lemma ClassifyIffEgresado(text: string)
    ensures Classify(text) == Validado <==> Contains(Upper(text), "EGRESADO")
  {
    ClassifyFindsKeyword(text);
    KeywordsContainEgresado();
    if Classify(text) == Validado {
      var k :| k in Keywords && Contains(Upper(text), Upper(k));
      ContainsTransitive(Upper(text), Upper(k), "EGRESADO");
    }
    if Contains(Upper(text), "EGRESADO") {
      assert Keywords[2] in Keywords;
    }
  }

  /** Classification ignores white space around the text, so classifying the
      untrimmed text agrees with classifying the trimmed message. */
  lemma ClassifyIgnoresTrim(text: string)
    ensures Classify(Trim(text)) == Classify(text)
  {
    ClassifyIffEgresado(text);
    ClassifyIffEgresado(Trim(text));
    if Contains(Upper(text), "EGRESADO") {
      TrimKeepsUpperOccurrence(text, "EGRESADO");
    }
    if Contains(Upper(Trim(text)), "EGRESADO") {
      TrimmedOccurrence(text, "EGRESADO");
    }
  }

  /** Classification is case-insensitive: upper-casing the text first does
      not change it. */
  lemma ClassifyIgnoresCase(text: string)
    ensures Classify(Upper(text)) == Classify(text)
  {
    UpperIdempotent(text);
  }

  /** A text none of whose letters is a `g` in either case cannot contain
      `EGRESADO`. */
  lemma WithoutGNotValidado(text: string)
    requires 'g' !in text && 'G' !in text
    ensures Classify(text) == NaoValidado
  {
    ClassifyIffEgresado(text);
    if Contains(Upper(text), "EGRESADO") {
      var i :| 0 <= i <= |text| - 8 && OccursAt(Upper(text), "EGRESADO", i);
      SecondLetterOfEgresado(text, i);
      assert false;
    }
  }

  lemma SecondLetterOfEgresado(text: string, i: int)
    requires OccursAt(Upper(text), "EGRESADO", i)
    ensures text[i + 1] == 'g' || text[i + 1] == 'G'
  {
    assert Upper(text)[i + 1] == Upper(text)[i..i + 8][1] == 'G';
  }

  /** The no-result sentinel never classifies as validated. */
  lemma SentinelNotValidado()
    ensures Classify(NoResultSentinel) == NaoValidado
  {
    WithoutGNotValidado(NoResultSentinel);
  }

  /** A text that contains a keyword as it is written is validated. */
  lemma KeywordValidates(text: string, k: string)
    requires k in Keywords && Contains(text, k)
    ensures Classify(text) == Validado
  {
    ContainsUpper(text, k);
    ClassifyFindsKeyword(text);
  }
}
