/**
 * `MissingDoctrineOrmTypeGuesser`: form types for the Doctrine column types
 * Symfony's own guesser does not know, falling back to that guesser.
 */
module TypeGuesser {
  import opened PhpArray

  /** `Guess::MEDIUM_CONFIDENCE` and `Guess::HIGH_CONFIDENCE` */
  const MEDIUM_CONFIDENCE: int := 1
  const HIGH_CONFIDENCE: int := 2

  // Doctrine\DBAL\Types\Types
  const SIMPLE_ARRAY: string := "simple_array"
  const JSON: string := "json"
  const OBJECT: string := "object"
  const BLOB: string := "blob"
  const GUID: string := "guid"

  const DATE_TIME_TYPE: string := "Symfony\\Component\\Form\\Extension\\Core\\Type\\DateTimeType"
  const DATE_TYPE: string := "Symfony\\Component\\Form\\Extension\\Core\\Type\\DateType"
  const TIME_TYPE: string := "Symfony\\Component\\Form\\Extension\\Core\\Type\\TimeType"
  const COLLECTION_TYPE: string := "Symfony\\Component\\Form\\Extension\\Core\\Type\\CollectionType"
  const TEXTAREA_TYPE: string := "Symfony\\Component\\Form\\Extension\\Core\\Type\\TextareaType"
  const TEXT_TYPE: string := "Symfony\\Component\\Form\\Extension\\Core\\Type\\TextType"

  datatype TypeGuess = TypeGuess(formType: string, options: Value, confidence: int)

  /** The class metadata's `getTypeOfField`, kept abstract. */
  datatype Metadata = Metadata(typeOfField: string -> Option<string>)

  /** `getMetadata($class)` and `parent::guessType($class, $property)`. */
  datatype Doctrine = Doctrine(getMetadata: string -> Option<Metadata>, parentGuess: (string, string) -> Option<TypeGuess>)

  /** The `switch` on the column type; None where it falls through. */
  function TableGuess(fieldType: Option<string>): Option<TypeGuess> {
    if fieldType.None? then None
    else
      var t := fieldType.value;
      if t == "datetime_immutable" then Some(TypeGuess(DATE_TIME_TYPE, EmptyArray, HIGH_CONFIDENCE))
      else if t == "date_immutable" then Some(TypeGuess(DATE_TYPE, EmptyArray, HIGH_CONFIDENCE))
      else if t == "time_immutable" then Some(TypeGuess(TIME_TYPE, EmptyArray, HIGH_CONFIDENCE))
      else if t == SIMPLE_ARRAY || t == JSON then Some(TypeGuess(COLLECTION_TYPE, EmptyArray, MEDIUM_CONFIDENCE))
      else if t == "json" then Some(TypeGuess(TEXTAREA_TYPE, EmptyArray, MEDIUM_CONFIDENCE))
      else if t == OBJECT || t == BLOB then Some(TypeGuess(TEXTAREA_TYPE, EmptyArray, MEDIUM_CONFIDENCE))
      else if t == GUID then Some(TypeGuess(TEXT_TYPE, EmptyArray, MEDIUM_CONFIDENCE))
      else None
  }

  function GuessType(d: Doctrine, className: string, property: string): Option<TypeGuess> {
    match d.getMetadata(className)
    case None => d.parentGuess(className, property)
    case Some(metadata) =>
      match TableGuess(metadata.typeOfField(property))
      case Some(guess) => Some(guess)
      case None => d.parentGuess(className, property)
  }

  // ---------------------------------------------------------------------------

  /** Without metadata for the class, the parent guesser decides. */
  lemma NoMetadata(d: Doctrine, className: string, property: string)
    requires d.getMetadata(className).None?
    ensures GuessType(d, className, property) == d.parentGuess(className, property)
  {
  }

  /** The table, row by row. */
  lemma Table()
    ensures TableGuess(Some("datetime_immutable")) == Some(TypeGuess(DATE_TIME_TYPE, EmptyArray, HIGH_CONFIDENCE))
    ensures TableGuess(Some("date_immutable")) == Some(TypeGuess(DATE_TYPE, EmptyArray, HIGH_CONFIDENCE))
    ensures TableGuess(Some("time_immutable")) == Some(TypeGuess(TIME_TYPE, EmptyArray, HIGH_CONFIDENCE))
    ensures TableGuess(Some("simple_array")) == Some(TypeGuess(COLLECTION_TYPE, EmptyArray, MEDIUM_CONFIDENCE))
    ensures TableGuess(Some("json")) == Some(TypeGuess(COLLECTION_TYPE, EmptyArray, MEDIUM_CONFIDENCE))
    ensures TableGuess(Some("object")) == Some(TypeGuess(TEXTAREA_TYPE, EmptyArray, MEDIUM_CONFIDENCE))
    ensures TableGuess(Some("blob")) == Some(TypeGuess(TEXTAREA_TYPE, EmptyArray, MEDIUM_CONFIDENCE))
    ensures TableGuess(Some("guid")) == Some(TypeGuess(TEXT_TYPE, EmptyArray, MEDIUM_CONFIDENCE))
  {
    assert "date_immutable"[4] != "datetime_immutable"[4];
  }

  /** `Types::JSON` is "json", so the later `'json'` case never matches and no
      column type is guessed as a textarea by it: a textarea guess always comes
      from an object or blob column. */
  lemma JsonCaseUnreachable(fieldType: Option<string>)
    ensures TableGuess(fieldType).Some? && TableGuess(fieldType).value.formType == TEXTAREA_TYPE
        ==> fieldType == Some(OBJECT) || fieldType == Some(BLOB)
  {
    if fieldType.Some? {
      var t := fieldType.value;
      if t == "datetime_immutable" || t == "date_immutable" || t == "time_immutable" || t == SIMPLE_ARRAY || t == JSON || t == GUID {
        assert TEXTAREA_TYPE[|TEXTAREA_TYPE| - 5] == 'a';
        assert DATE_TIME_TYPE[|DATE_TIME_TYPE| - 5] == 'e' && DATE_TYPE[|DATE_TYPE| - 5] == 'e' && TIME_TYPE[|TIME_TYPE| - 5] == 'e';
        assert COLLECTION_TYPE[|COLLECTION_TYPE| - 5] == 'n' && TEXT_TYPE[|TEXT_TYPE| - 5] == 't';
      }
    }
  }

  /** A guess from the table never carries options, and only the three
      immutable date and time types get high confidence. */
  lemma TableGuessFacts(fieldType: Option<string>)
    ensures TableGuess(fieldType).Some? ==> TableGuess(fieldType).value.options == EmptyArray
    ensures TableGuess(fieldType).Some? ==> (TableGuess(fieldType).value.confidence == HIGH_CONFIDENCE
      <==> fieldType.value in ["datetime_immutable", "date_immutable", "time_immutable"])
    ensures TableGuess(fieldType).Some? ==> TableGuess(fieldType).value.confidence in {MEDIUM_CONFIDENCE, HIGH_CONFIDENCE}
  {
  }

  /** Column types outside the table fall through to the parent guess; those
      in it never reach the parent. */
  lemma FallThrough(d: Doctrine, className: string, property: string, metadata: Metadata)
    requires d.getMetadata(className) == Some(metadata)
    ensures TableGuess(metadata.typeOfField(property)).None? ==> GuessType(d, className, property) == d.parentGuess(className, property)
    ensures TableGuess(metadata.typeOfField(property)).Some? ==> GuessType(d, className, property) == TableGuess(metadata.typeOfField(property))
  {
  }

  lemma OutsideTable(t: string)
    requires t !in ["datetime_immutable", "date_immutable", "time_immutable", "simple_array", "json", "object", "blob", "guid"]
    ensures TableGuess(Some(t)).None?
  {
  }
}
