/** Placeholder counts of the fixed pieces of the SQL templates.  Each piece
    gets a lemma of its own: one literal per proof keeps each proof small. */
module SqlLiterals {
  import opened Values

  lemma SelectOpenLiteral()
    ensures Count("select `", '?') == 0
  {
    AbsentCount("select `", '?');
  }

  lemma KeyColumnSepLiteral()
    ensures Count("`, ", '?') == 0
  {
    AbsentCount("`, ", '?');
  }

  lemma FromOpenLiteral()
    ensures Count(" from `", '?') == 0
  {
    AbsentCount(" from `", '?');
  }

  lemma BacktickLiteral()
    ensures Count("`", '?') == 0
  {
    AbsentCount("`", '?');
  }

  lemma InsertOpenLiteral()
    ensures Count("insert into `", '?') == 0
  {
    AbsentCount("insert into `", '?');
  }

  lemma ColumnsOpenLiteral()
    ensures Count("` (", '?') == 0
  {
    AbsentCount("` (", '?');
  }

  lemma KeyColumnOpenLiteral()
    ensures Count(", `", '?') == 0
  {
    AbsentCount(", `", '?');
  }

  lemma ValuesOpenLiteral()
    ensures Count("`) values (", '?') == 0
  {
    AbsentCount("`) values (", '?');
  }

  lemma ValuesCloseLiteral()
    ensures Count(")", '?') == 0
  {
    AbsentCount(")", '?');
  }

  lemma UpdateOpenLiteral()
    ensures Count("update `", '?') == 0
  {
    AbsentCount("update `", '?');
  }

  lemma SetOpenLiteral()
    ensures Count("` set ", '?') == 0
  {
    AbsentCount("` set ", '?');
  }

  lemma WhereOpenLiteral()
    ensures Count(" where `", '?') == 0
  {
    AbsentCount(" where `", '?');
  }

  lemma DeleteOpenLiteral()
    ensures Count("delete from `", '?') == 0
  {
    AbsentCount("delete from `", '?');
  }

  lemma DeleteWhereOpenLiteral()
    ensures Count("` where `", '?') == 0
  {
    AbsentCount("` where `", '?');
  }

  lemma ListSepLiteral()
    ensures Count(", ", '?') == 0
  {
    AbsentCount(", ", '?');
  }

  // The fixed pieces of each template hold no placeholder.

  lemma SelectLiterals()
    ensures Count("select `", '?') == 0
    ensures Count("`, ", '?') == 0
    ensures Count(" from `", '?') == 0
    ensures Count("`", '?') == 0
  {
    SelectOpenLiteral();
    KeyColumnSepLiteral();
    FromOpenLiteral();
    BacktickLiteral();
  }

  lemma InsertLiterals()
    ensures Count("insert into `", '?') == 0
    ensures Count("` (", '?') == 0
    ensures Count(", `", '?') == 0
  {
    InsertOpenLiteral();
    ColumnsOpenLiteral();
    KeyColumnOpenLiteral();
  }

  lemma ValuesLiterals()
    ensures Count("`) values (", '?') == 0
    ensures Count(")", '?') == 0
  {
    ValuesOpenLiteral();
    ValuesCloseLiteral();
  }

  lemma UpdateLiterals()
    ensures Count("update `", '?') == 0
    ensures Count("` set ", '?') == 0
    ensures Count(" where `", '?') == 0
  {
    UpdateOpenLiteral();
    SetOpenLiteral();
    WhereOpenLiteral();
  }

  lemma DeleteLiterals()
    ensures Count("delete from `", '?') == 0
    ensures Count("` where `", '?') == 0
  {
    DeleteOpenLiteral();
    DeleteWhereOpenLiteral();
  }

  lemma SepLiterals()
    ensures Count(", ", '?') == 0
  {
    ListSepLiteral();
  }

  /** The key condition that closes update and delete holds one placeholder. */
  lemma KeyConditionLiteral()
    ensures Count("`=?", '?') == 1
  {
    AbsentCount("`=", '?');
    CountConcat("`=", "?", '?');
    assert "`=" + "?" == "`=?";
  }
}
