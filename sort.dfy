/**
 * `Sort`, the key the command line sorts its report by, and
 * `Sort::from_str`, which reads one from an argument. The parse is
 * case-sensitive, accepts only the all-lower-case and the capitalised
 * spelling of a key, never produces `Language`, and rejects everything else
 * with an empty error.
 */
module SortKey {
  import opened Text

  datatype Sort = Blank | Code | Comment | Files | Language | Lines

  datatype Result<T, E> = Ok(value: T) | Err(error: E)

  /** Each key's name, all in lower case. */
  function LowerName(k: Sort): string {
    match k
    case Blank => "blank"
    case Code => "code"
    case Comment => "comment"
    case Files => "files"
    case Language => "language"
    case Lines => "lines"
  }

  /** `w` with its first letter, an ASCII lower-case letter, made upper case. */
  function Capitalize(w: string): string
    requires w != [] && 'a' <= w[0] <= 'z'
  {
    [(w[0] as int - 32) as char] + w[1..]
  }

  /** The argument spells key `k` in one of the two accepted ways. */
  predicate Spells(s: string, k: Sort) {
    k != Language && (s == LowerName(k) || s == Capitalize(LowerName(k)))
  }

  /** `Sort::from_str`. */
  function FromStr(s: string): (r: Result<Sort, Option<string>>)
    ensures r.Ok? ==> Spells(s, r.value)
    ensures r.Err? ==> r.error == None && forall k :: !Spells(s, k)
  {
    if s == "blank" || s == "Blank" then Ok(Blank)
    else if s == "code" || s == "Code" then Ok(Code)
    else if s == "comment" || s == "Comment" then Ok(Comment)
    else if s == "lines" || s == "Lines" then Ok(Lines)
    else if s == "files" || s == "Files" then Ok(Files)
    else
      Unspelled(s);
      Err(None)
  }

  /** The capitalised spelling of each key. */
  lemma CapitalName(k: Sort)
    ensures k == Blank ==> Capitalize(LowerName(k)) == "Blank"
    ensures k == Code ==> Capitalize(LowerName(k)) == "Code"
    ensures k == Comment ==> Capitalize(LowerName(k)) == "Comment"
    ensures k == Files ==> Capitalize(LowerName(k)) == "Files"
    ensures k == Lines ==> Capitalize(LowerName(k)) == "Lines"
  {
  }

  /** An argument other than the ten accepted spellings spells no key. */
  lemma Unspelled(s: string)
    requires s != "blank" && s != "Blank" && s != "code" && s != "Code" && s != "comment" && s != "Comment"
    requires s != "lines" && s != "Lines" && s != "files" && s != "Files"
    ensures forall k :: !Spells(s, k)
  {
    forall k | k != Language
      ensures !Spells(s, k)
    {
      CapitalName(k);
    }
  }

  /** Every key but `Language` reads back from both of its spellings. */
  lemma FromStrReadsSpellings(s: string, k: Sort)
    requires Spells(s, k)
    ensures FromStr(s) == Ok(k)
  {
  }

  /** No argument, whatever its spelling, selects `Language`. */
  lemma NeverLanguage(s: string)
    ensures FromStr(s) != Ok(Language)
  {
  }

  /** Other capitalisations and surrounding spaces are rejected. */
  lemma UpperCaseRejected()
    ensures FromStr("BLANK") == Err(None)
  {
  }

  lemma LeadingSpaceRejected()
    ensures FromStr(" code") == Err(None)
  {
  }

  lemma TrailingSpaceRejected()
    ensures FromStr("Code ") == Err(None)
  {
  }

  lemma LanguageNameRejected()
    ensures FromStr("language") == Err(None) && FromStr("Language") == Err(None)
  {
  }
}
