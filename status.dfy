/**
 * The ticket `Status` enumeration and its case-insensitive parser
 * (`TryFrom<String>` and `TryFrom<&str>` for `Status`).
 *
 * Both entry points lower-case their input and compare it with three
 * literals; any other input gives a `ParseStatusError` that carries the
 * input exactly as it was given. Case folding is modelled for ASCII only.
 */
module StatusParsing {
  import opened Wrappers

  datatype Status = ToDo | InProgress | Done

  /** The error of a failed parse; `invalidStatus` is the rejected input. */
  datatype ParseStatusError = ParseStatusError(invalidStatus: string)

  /** The lower-case literal that each status is parsed from. */
  function Literal(s: Status): string {
    match s
    case ToDo => "todo"
    case InProgress => "inprogress"
    case Done => "done"
  }

  predicate IsAsciiUpper(c: char) {
    'A' <= c <= 'Z'
  }

  predicate IsAsciiLower(c: char) {
    'a' <= c <= 'z'
  }

  /** ASCII lower-casing of one character; every other character is kept. */
  function LowerChar(c: char): char {
    if IsAsciiUpper(c) then (c as int + 32) as char else c
  }

  /** ASCII upper-casing of one character; every other character is kept. */
  function UpperChar(c: char): char {
    if IsAsciiLower(c) then (c as int - 32) as char else c
  }

  /** `str::to_lowercase`, restricted to ASCII letters. */
  function ToLower(s: string): (r: string)
    ensures |r| == |s|
    ensures forall i :: 0 <= i < |s| ==> r[i] == LowerChar(s[i])
  {
    if s == [] then [] else [LowerChar(s[0])] + ToLower(s[1..])
  }

  /**
   * `s` spells the lower-case word `word` with each letter in either case.
   * This is stated without lower-casing `s`: it is the reference that the
   * parser's use of `ToLower` is checked against.
   */
  ghost predicate IsCasingOf(s: string, word: string) {
    |s| == |word| && forall i :: 0 <= i < |s| ==> s[i] == word[i] || s[i] == UpperChar(word[i])
  }

  ghost predicate IsLowerWord(word: string) {
    forall i :: 0 <= i < |word| ==> IsAsciiLower(word[i])
  }

  /** `Status::try_from(value: String)`. */
  function TryFromString(value: string): (r: Result<Status, ParseStatusError>)
    ensures r.Ok? ==> ToLower(value) == Literal(r.value)
    ensures r.Err? ==> r.error.invalidStatus == value
  {
    var lowerCase := ToLower(value);
    if lowerCase == "todo" then Ok(ToDo)
    else if lowerCase == "inprogress" then Ok(InProgress)
    else if lowerCase == "done" then Ok(Done)
    else Err(ParseStatusError(value))
  }

  /** `Status::try_from(value: &str)`; `String::from` copies the input unchanged. */
  function TryFromStr(value: string): (r: Result<Status, ParseStatusError>)
    ensures r.Ok? ==> ToLower(value) == Literal(r.value)
    ensures r.Err? ==> r.error.invalidStatus == value
  {
    var lowerCase := ToLower(value);
    if lowerCase == "todo" then Ok(ToDo)
    else if lowerCase == "inprogress" then Ok(InProgress)
    else if lowerCase == "done" then Ok(Done)
    else Err(ParseStatusError(value))
  }

  /** For a word of lower-case letters, lower-casing `s` gives the word exactly when `s` is a casing of it. */
  lemma CasingIffLowersTo(s: string, word: string)
    requires IsLowerWord(word)
    ensures IsCasingOf(s, word) <==> ToLower(s) == word
  {
    if IsCasingOf(s, word) {
      forall i | 0 <= i < |s| ensures ToLower(s)[i] == word[i] {
        assert s[i] == word[i] || s[i] == UpperChar(word[i]);
      }
    }
    if ToLower(s) == word {
      forall i | 0 <= i < |s| ensures s[i] == word[i] || s[i] == UpperChar(word[i]) {
        assert LowerChar(s[i]) == word[i];
      }
    }
  }

  lemma LiteralsAreLowerWords(st: Status)
    ensures IsLowerWord(Literal(st))
  {
  }

  /** Any casing of a status literal parses to that status, and nothing else does. */
  lemma ParsesExactlyCasings(value: string, st: Status)
    ensures TryFromString(value) == Ok(st) <==> IsCasingOf(value, Literal(st))
  {
    LiteralsAreLowerWords(st);
    CasingIffLowersTo(value, Literal(st));
  }

  /** Parsing fails exactly when the input is no casing of any of the three literals. */
  lemma FailsExactlyOnOthers(value: string)
    ensures TryFromString(value).Err? <==>
      !IsCasingOf(value, "todo") && !IsCasingOf(value, "inprogress") && !IsCasingOf(value, "done")
  {
    ParsesExactlyCasings(value, ToDo);
    ParsesExactlyCasings(value, InProgress);
    ParsesExactlyCasings(value, Done);
  }

  /** Lower-casing a lower-cased string changes nothing: folding a folded character keeps it. */
  lemma ToLowerIdempotent(s: string)
    ensures ToLower(ToLower(s)) == ToLower(s)
  {
  }

  /** Parsing after lower-casing gives the same status as parsing the input itself. */
  lemma ParseOfLowered(value: string)
    ensures TryFromString(value).Ok? ==> TryFromString(ToLower(value)) == TryFromString(value)
    ensures TryFromString(value).Ok? <==> TryFromString(ToLower(value)).Ok?
  {
    ToLowerIdempotent(value);
  }

  /** Two inputs that differ only in case parse alike; an error still carries its own input. */
  lemma CaseInsensitive(s: string, t: string)
    requires ToLower(s) == ToLower(t)
    ensures TryFromString(s).Ok? ==> TryFromString(t) == TryFromString(s)
    ensures TryFromString(s).Err? ==> TryFromString(t) == Err(ParseStatusError(t))
  {
  }

  /** The `String` and `&str` entry points agree on every input. */
  lemma EntryPointsAgree(value: string)
    ensures TryFromStr(value) == TryFromString(value)
  {
  }

  /** The inputs of the module's unit tests: `"ToDO"`, `"inproGress"`, `"Done"` parse, `"Invalid"` does not. */
  lemma TestToDo()
    ensures TryFromString("ToDO") == Ok(ToDo) && TryFromStr("ToDO") == Ok(ToDo)
  {
    ParsesExactlyCasings("ToDO", ToDo);
    EntryPointsAgree("ToDO");
  }

  lemma TestInProgress()
    ensures TryFromString("inproGress") == Ok(InProgress) && TryFromStr("inproGress") == Ok(InProgress)
  {
    assert IsCasingOf("inproGress", Literal(InProgress));
    ParsesExactlyCasings("inproGress", InProgress);
    EntryPointsAgree("inproGress");
  }

  lemma TestDone()
    ensures TryFromString("Done") == Ok(Done) && TryFromStr("Done") == Ok(Done)
  {
    ParsesExactlyCasings("Done", Done);
    EntryPointsAgree("Done");
  }

  lemma TestInvalid()
    ensures TryFromStr("Invalid") == Err(ParseStatusError("Invalid"))
  {
    FailsExactlyOnOthers("Invalid");
    EntryPointsAgree("Invalid");
  }
}
