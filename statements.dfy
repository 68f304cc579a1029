/**
 * The read/mutation classifier shared by RootDataRepo.executeQuery,
 * SqlController.executeQuery and DbLearningApp.executeQuery: a textual
 * heuristic, not a SQL grammar.
 */
module Statements {
  import opened JavaStrings

  /** `sql.trim().toUpperCase().startsWith("SELECT")`. */
  predicate IsRead(sql: string) {
    StartsWith(ToUpper(Trim(sql)), "SELECT")
  }

  /** A statement is read at the position where `trim` stops. */
  lemma ReadHasPosition(sql: string) returns (i: nat)
    requires IsRead(sql)
    ensures i + 6 <= |sql| && AllTrimmable(sql[..i]) && ToUpper(sql[i..i + 6]) == "SELECT"
  {
    TrimStartShape(sql);
    var t := TrimStart(sql);
    i := |sql| - |t|;
    TrimEndShape(t);
    var r := Trim(sql);
    assert r == sql[i..i + |r|];
    ToUpperSlice(r, 0, 6);
    assert r[..6] == sql[i..i + 6];
  }

  /** Six characters capitalising to SELECT after nothing but trimmable ones make a read. */
  lemma PositionIsRead(sql: string, k: nat)
    requires k + 6 <= |sql| && AllTrimmable(sql[..k]) && ToUpper(sql[k..k + 6]) == "SELECT"
    ensures IsRead(sql)
  {
    var w := sql[k..k + 6];
    assert ToUpper(w)[0] == UpperChar(w[0]) && ToUpper(w)[5] == UpperChar(w[5]);
    assert UpperChar(w[0]) == 'S' && UpperChar(w[5]) == 'T';
    TrimStartAt(sql, k);
    var t := TrimStart(sql);
    assert t == sql[k..];
    assert t[5] == w[5];
    TrimEndKeeps(t, 5);
    TrimEndShape(t);
    assert Trim(sql)[..6] == t[..6] == w;
    ToUpperSlice(Trim(sql), 0, 6);
  }

  /**
   * A statement is a read exactly when, after a run of characters at most
   * U+0020, its next six characters capitalise to SELECT. Nothing is required
   * of what follows, so `SELECTX` is a read too.
   */
  lemma ReadCharacterisation(sql: string)
    ensures IsRead(sql) <==>
      exists i :: 0 <= i && i + 6 <= |sql| && AllTrimmable(sql[..i]) && ToUpper(sql[i..i + 6]) == "SELECT"
  {
    if IsRead(sql) {
      var i := ReadHasPosition(sql);
    }
    if exists k :: 0 <= k && k + 6 <= |sql| && AllTrimmable(sql[..k]) && ToUpper(sql[k..k + 6]) == "SELECT" {
      var k :| 0 <= k && k + 6 <= |sql| && AllTrimmable(sql[..k]) && ToUpper(sql[k..k + 6]) == "SELECT";
      PositionIsRead(sql, k);
    }
  }

  /** Leading whitespace (characters at most U+0020) never changes the classification. */
  lemma ReadIgnoresLeadingWhitespace(w: string, sql: string)
    requires AllTrimmable(w)
    ensures IsRead(w + sql) == IsRead(sql)
  {
    TrimSkipsLeading(w, sql);
  }

  /** Two statements with the same capitals (`select` and `SeLeCt`, say) are classified alike. */
  lemma ReadIgnoresCase(a: string, b: string)
    requires ToUpper(a) == ToUpper(b)
    ensures IsRead(a) == IsRead(b)
  {
    ReadCharacterisation(a);
    ReadCharacterisation(b);
    forall i | 0 <= i && i + 6 <= |a|
      ensures AllTrimmable(a[..i]) == AllTrimmable(b[..i])
      ensures ToUpper(a[i..i + 6]) == ToUpper(b[i..i + 6])
    {
      assert forall k :: 0 <= k < i ==> (IsTrimmable(a[k]) <==> IsTrimmable(b[k])) by {
        forall k | 0 <= k < i ensures IsTrimmable(a[k]) <==> IsTrimmable(b[k]) {
          assert ToUpper(a)[k] == ToUpper(b)[k];
        }
      }
      assert a[..i][..] == a[..i];
      assert forall k :: 0 <= k < i ==> a[..i][k] == a[k] && b[..i][k] == b[k];
      ToUpperSlice(a, i, i + 6);
      ToUpperSlice(b, i, i + 6);
    }
    if IsRead(a) {
      var i :| 0 <= i && i + 6 <= |a| && AllTrimmable(a[..i]) && ToUpper(a[i..i + 6]) == "SELECT";
      assert ToUpper(b[i..i + 6]) == "SELECT";
    }
    if IsRead(b) {
      var i :| 0 <= i && i + 6 <= |b| && AllTrimmable(b[..i]) && ToUpper(b[i..i + 6]) == "SELECT";
      assert ToUpper(a[i..i + 6]) == "SELECT";
    }
  }

  /** A statement whose first character is above U+0020 is a read only if that character is `S` or `s`. */
  lemma FirstLetterDecides(sql: string)
    requires |sql| > 0 && !IsTrimmable(sql[0]) && UpperChar(sql[0]) != 'S'
    ensures !IsRead(sql)
  {
    ReadCharacterisation(sql);
    forall i | 0 <= i && i + 6 <= |sql| && AllTrimmable(sql[..i])
      ensures ToUpper(sql[i..i + 6]) != "SELECT"
    {
      LeadingRun(sql, i);
      assert ToUpper(sql[i..i + 6])[0] == UpperChar(sql[0]);
    }
  }

  /** Common table expressions (`WITH ... SELECT`) take the mutation path. */
  lemma CteIsNotRead()
    ensures !IsRead("WITH t AS (SELECT 1) SELECT * FROM t")
  {
    FirstLetterDecides("WITH t AS (SELECT 1) SELECT * FROM t");
  }

  /** `SHOW` statements take the mutation path. */
  lemma ShowIsNotRead()
    ensures !IsRead("SHOW TABLES")
  {
    var h := "SHOW TABLES";
    ReadCharacterisation(h);
    forall i | 0 <= i && i + 6 <= |h| && AllTrimmable(h[..i])
      ensures ToUpper(h[i..i + 6]) != "SELECT"
    {
      LeadingRun(h, i);
      assert ToUpper(h[i..i + 6])[1] == UpperChar(h[1]);
    }
  }

  /** Lower case after leading blanks still selects the read path. */
  lemma LowerCaseIsRead()
    ensures IsRead(" select 1")
  {
    var s := " select 1";
    ReadCharacterisation(s);
    assert AllTrimmable(s[..1]);
    var w := s[1..7];
    assert w == "select";
    assert ToUpper(w) == "SELECT";
  }

  /** Only the prefix is tested: `SELECTX` is a read. */
  lemma SelectXIsRead()
    ensures IsRead("SELECTX")
  {
    var s := "SELECTX";
    ReadCharacterisation(s);
    assert AllTrimmable(s[..0]);
    var w := s[0..6];
    assert w == "SELECT";
    assert ToUpper(w) == "SELECT";
  }
}
