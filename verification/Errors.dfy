/** json_database/errors.py, and the collection-name rule both layers apply. */
module Errors {

  datatype DbError =
    | SerializationError
    | LockError
    | IntegrityError(expected: string, actual: string)
    | NotFoundError
    | TransactionError
    | QueryError
    | ValidationError
    | StorageError
    | DatabaseFormatError
    /** Exceptions of Python's own that the program lets through. */
    | InvalidOperation
    | ValueError
    | OsError

  predicate IsWordChar(c: char) {
    'a' <= c <= 'z' || 'A' <= c <= 'Z' || '0' <= c <= '9' || c == '_' || c == '-'
  }

  predicate IsWord(s: string) {
    s != "" && forall i :: 0 <= i < |s| ==> IsWordChar(s[i])
  }

  /** `validate_collection_name` accepts the name. Python's `$` also matches before a final newline. */
  predicate ValidName(s: string) {
    && s != "" && !("__" <= s)
    && (IsWord(s) || (s[|s| - 1] == '\n' && IsWord(s[..|s| - 1])))
  }

  /** The codes of the letters, the digits, the underscore and the hyphen. */
  predicate IsWordCode(n: int) {
    n == 45 || n == 95 || 48 <= n <= 57 || 65 <= n <= 90 || 97 <= n <= 122
  }

  /** A name has no other characters, but for one newline at the end of it, and does not begin with two underscores. */
  lemma ValidNameMeans(s: string)
    ensures ValidName(s) <==>
      && s != "" && !(|s| >= 2 && s[0] == '_' && s[1] == '_')
      && forall i :: 0 <= i < |s| ==> IsWordCode(s[i] as int) || (s[i] as int == 10 && i == |s| - 1 && i > 0)
  {
    assert '\n' as int == 10 && '_' as int == 95 && '-' as int == 45;
    assert forall c: char :: IsWordChar(c) <==> IsWordCode(c as int);
    if s != "" {
      var init := s[..|s| - 1];
      assert forall i :: 0 <= i < |init| ==> init[i] == s[i];
      assert "__" <= s <==> |s| >= 2 && s[0] == '_' && s[1] == '_';
      if ValidName(s) && !IsWord(s) {
        assert IsWord(init);
      }
    }
  }
}
