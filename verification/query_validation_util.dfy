/**
 * QueryValidationUtil.queryValidation: the guard that the query observers
 * run before a BI query is stored. A query is accepted exactly when its
 * trimmed, lower-cased text starts with "select"; on acceptance one line is
 * logged and nothing else happens.
 */
module QueryValidationUtil {
  import opened Outcomes
  import opened JavaText

  const INVALID_QUERY_SYNTAX: string := "ETPBIC_InvalidQuerySyntax"
  const QUERY_CREATED: string := "custom query created"
  const SELECT: string := "select"

  /** The text the guard inspects: the query trimmed, then lower-cased. */
  function Normalized(query: string): string {
    ToLower(Trim(query))
  }

  function QueryValidation(query: string): (v: Verdict)
    ensures v.Allowed? <==> StartsWith(Normalized(query), SELECT)
    ensures v.Allowed? ==> v.logged == [QUERY_CREATED]
    ensures v.Blocked? ==> v.error == Translated(INVALID_QUERY_SYNTAX)
  {
    if StartsWith(Normalized(query), SELECT) then Allowed([QUERY_CREATED])
    else Blocked(Translated(INVALID_QUERY_SYNTAX))
  }

  /** Whitespace around the query never changes the verdict. */
  lemma PaddingIsIgnored(left: string, query: string, right: string)
    requires AllTrimSpace(left) && AllTrimSpace(right)
    ensures QueryValidation(left + query + right) == QueryValidation(query)
  {
    TrimIgnoresPadding(left, query, right);
  }

  /** Two queries that differ only in letter case get the same verdict. */
  lemma CaseIsIgnored(a: string, b: string)
    requires ToLower(a) == ToLower(b)
    ensures QueryValidation(a) == QueryValidation(b)
  {
    TrimCommutesWithLower(a);
    TrimCommutesWithLower(b);
  }

  /**
   * A prefix check only: after optional leading whitespace, the keyword
   * SELECT in any letter case is accepted, whatever text follows it.
   */
  lemma AcceptsSelectKeyword(pad: string, keyword: string, rest: string)
    requires AllTrimSpace(pad)
    requires ToLower(keyword) == SELECT
    ensures QueryValidation(pad + keyword + rest).Allowed?
  {
    KeywordIsVisible(keyword);
    var body := keyword + rest;
    assert pad + keyword + rest == pad + body;
    TrimStartSkipsSpace(pad, body);
    assert TrimStart(body) == body by {
      assert body[0] == keyword[0];
    }
    assert body[5] == keyword[5];
    TrimEndKeepsVisiblePrefix(body, 6);
    var t := Trim(pad + body);
    assert t[..6] == keyword by {
      assert body[..6] == keyword;
    }
    ToLowerPrefix(t, 6);
  }

  /** Both ends of any spelling of SELECT are visible characters. */
  lemma KeywordIsVisible(keyword: string)
    requires ToLower(keyword) == SELECT
    ensures |keyword| == 6 && !IsTrimSpace(keyword[0]) && !IsTrimSpace(keyword[5])
  {
    assert LowerChar(keyword[0]) == ToLower(keyword)[0] == 's';
    assert LowerChar(keyword[5]) == ToLower(keyword)[5] == 't';
    LowerKeepsTrimSpace(keyword[0]);
    LowerKeepsTrimSpace(keyword[5]);
  }

  /**
   * Any query whose first visible character is not an s or an S is
   * rejected; this covers INSERT, UPDATE and DELETE statements.
   */
  lemma RejectsOtherFirstWord(pad: string, first: char, rest: string)
    requires AllTrimSpace(pad)
    requires !IsTrimSpace(first) && LowerChar(first) != 's'
    ensures QueryValidation(pad + [first] + rest) == Blocked(Translated(INVALID_QUERY_SYNTAX))
  {
    var body := [first] + rest;
    assert pad + [first] + rest == pad + body;
    TrimStartSkipsSpace(pad, body);
    assert TrimStart(body) == body;
    TrimEndKeepsVisiblePrefix(body, 1);
    assert Trim(pad + body)[0] == first;
    assert Normalized(pad + body)[0] != SELECT[0];
  }

  /** AcceptsSelectKeyword, for a query whose keyword starts at position k. */
  lemma AcceptsSelectAt(query: string, k: nat)
    requires k + 6 <= |query| && AllTrimSpace(query[..k])
    requires ToLower(query[k..k + 6]) == SELECT
    ensures QueryValidation(query).Allowed?
  {
    assert query == query[..k] + query[k..k + 6] + query[k + 6..];
    AcceptsSelectKeyword(query[..k], query[k..k + 6], query[k + 6..]);
  }

  /** RejectsOtherFirstWord, for a query whose first visible character is at position k. */
  lemma RejectsAt(query: string, k: nat)
    requires k < |query| && AllTrimSpace(query[..k])
    requires !IsTrimSpace(query[k]) && LowerChar(query[k]) != 's'
    ensures QueryValidation(query) == Blocked(Translated(INVALID_QUERY_SYNTAX))
  {
    assert query == query[..k] + [query[k]] + query[k + 1..];
    RejectsOtherFirstWord(query[..k], query[k], query[k + 1..]);
  }

  /** The SELECT queries of the unit tests are accepted. */
  lemma TestSelectQueryAccepted()
    ensures QueryValidation("SELECT * FROM C_Order").Allowed?
  {
    AcceptsSelectAt("SELECT * FROM C_Order", 0);
  }

  /** A SELECT surrounded by spaces is accepted: the spaces are trimmed before the first word is read. */
  lemma TestPaddedSelectQueryAccepted()
    ensures QueryValidation("  SELECT id, name FROM AD_Table  ").Allowed?
  {
    var query := "  SELECT id, name FROM AD_Table  ";
    assert query[..2] == "  " && AllTrimSpace("  ");
    assert query[2] == 'S' && query[3] == 'E' && query[4] == 'L';
    assert query[5] == 'E' && query[6] == 'C' && query[7] == 'T';
    assert query[2..8] == "SELECT";
    assert ToLower("SELECT") == SELECT;
    AcceptsSelectAt(query, 2);
  }

  /** The INSERT, UPDATE and DELETE statements of the unit tests are rejected. */
  lemma TestModifyingQueriesRejected()
    ensures QueryValidation("INSERT INTO table_name VALUES (1, 2, 3)").Blocked?
    ensures QueryValidation("UPDATE table_name SET column1 = value1").Blocked?
    ensures QueryValidation("DELETE FROM table_name").Blocked?
  {
    RejectsAt("INSERT INTO table_name VALUES (1, 2, 3)", 0);
    RejectsAt("UPDATE table_name SET column1 = value1", 0);
    RejectsAt("DELETE FROM table_name", 0);
  }
}
