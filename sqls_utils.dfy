/** Small string helpers of the relational store: quoting a column name in backticks and
    building a nullable SQL string. `strs.IsBlank`, which decides what counts as blank, is
    not part of this model and is passed in as `isBlank`. */
module SqlUtils {

  /** `sql.NullString` */
  datatype NullString = NullString(str: string, valid: bool)

  /** A nullable string that is NULL exactly when the value is empty. */
  function SqlNullString(value: string): (r: NullString)
    ensures r.str == value
    ensures r.valid <==> |value| > 0
  {
    NullString(value, |value| > 0)
  }

  /** `KeywordWrap`: a blank keyword is returned unchanged, any other is quoted in backticks. */
  function KeywordWrap(isBlank: string -> bool, keyword: string): (r: string)
    ensures isBlank(keyword) ==> r == keyword
    ensures !isBlank(keyword) ==> |r| == |keyword| + 2 && r[0] == '`' && r[|r| - 1] == '`'
  {
    if isBlank(keyword) then keyword else "`" + keyword + "`"
  }

  /** Removes one enclosing pair of backticks, if there is one. */
  function Unquote(s: string): string
  {
    if |s| >= 2 && s[0] == '`' && s[|s| - 1] == '`' then s[1..|s| - 1] else s
  }

  /** Quoting loses nothing: the quoted name gives back the keyword. Hence two different
      non-blank keywords are never quoted to the same name. */
  lemma UnquoteKeywordWrap(isBlank: string -> bool, keyword: string)
    requires !isBlank(keyword)
    ensures Unquote(KeywordWrap(isBlank, keyword)) == keyword
  {
    var r := KeywordWrap(isBlank, keyword);
    assert r == "`" + keyword + "`";
    assert r[1..|r| - 1] == keyword;
  }

  /** KeywordWrap is not idempotent: quoting an already quoted, non-blank name adds a
      second pair of backticks. */
  lemma KeywordWrapNotIdempotent(isBlank: string -> bool, keyword: string)
    requires !isBlank(keyword) && !isBlank(KeywordWrap(isBlank, keyword))
    ensures KeywordWrap(isBlank, KeywordWrap(isBlank, keyword)) == "``" + keyword + "``"
    ensures KeywordWrap(isBlank, KeywordWrap(isBlank, keyword)) != KeywordWrap(isBlank, keyword)
  {
    var once := KeywordWrap(isBlank, keyword);
    assert once == "`" + keyword + "`";
    assert |KeywordWrap(isBlank, once)| == |once| + 2;
  }
}
