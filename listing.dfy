/** The user table of the home page (src/routes/index.tsx): how the list of
    users is turned into rows and how a timestamp cell is written.

    Timestamps are taken in the ISO 8601 form `Date.prototype.toJSON`
    produces (`YYYY-MM-DDTHH:mm:ss.sssZ`); parsing a `Date` is not modelled. */
module Listing {
  import opened Options
  import opened Text

  /** The position of the first `c` in `s`, or `|s|` when there is none. */
  function IndexOf(s: string, c: char): (i: nat)
    ensures i <= |s|
    ensures i < |s| ==> s[i] == c
    ensures forall j :: 0 <= j < i ==> s[j] != c
  {
    if s == [] then 0
    else if s[0] == c then 0
    else 1 + IndexOf(s[1..], c)
  }

  /** The three facts above determine the position. */
  lemma IndexOfUnique(s: string, c: char, i: nat)
    requires i <= |s|
    requires i < |s| ==> s[i] == c
    requires forall j :: 0 <= j < i ==> s[j] != c
    ensures IndexOf(s, c) == i
  {
  }

  /** `s.replace(from, to)` with a one-character string pattern: only the first
      occurrence is replaced. */
  function ReplaceFirst(s: string, from: char, to: char): (r: string)
    ensures |r| == |s|
    ensures forall i :: 0 <= i < |s| ==> r[i] == if i == IndexOf(s, from) then to else s[i]
  {
    var k := IndexOf(s, from);
    if k == |s| then s else s[..k] + [to] + s[k + 1..]
  }

  /** `s.split(sep)[0]`: everything before the first separator, or all of `s`. */
  function FirstPiece(s: string, sep: char): (r: string)
    ensures r <= s
    ensures |r| == IndexOf(s, sep)
    ensures sep !in r
    ensures sep !in s ==> r == s
  {
    s[..IndexOf(s, sep)]
  }

  /** Replacing one character by another leaves the first position of a third
      character where it was. */
  lemma IndexOfAfterReplace(s: string, from: char, to: char, c: char)
    requires from != c && to != c
    ensures IndexOf(ReplaceFirst(s, from, to), c) == IndexOf(s, c)
  {
    var r := ReplaceFirst(s, from, to);
    var k := IndexOf(s, c);
    assert k < |s| ==> r[k] == c;
    assert forall j :: 0 <= j < k ==> r[j] != c by {
      forall j | 0 <= j < k ensures r[j] != c {
        assert s[j] != c;
      }
    }
    IndexOfUnique(r, c, k);
  }

  /** `new Date(x).toJSON().replace("T", " ").split(".")[0]`, from the ISO
      string on: the input up to its first `.`, with its first `T` (if that
      comes earlier) turned into a space. */
  function FormatTimestamp(iso: string): (r: string)
    ensures |r| == IndexOf(iso, '.') <= |iso|
    ensures '.' !in r
    ensures forall i :: 0 <= i < |r| ==> r[i] == if i == IndexOf(iso, 'T') then ' ' else iso[i]
  {
    IndexOfAfterReplace(iso, 'T', ' ', '.');
    FirstPiece(ReplaceFirst(iso, 'T', ' '), '.')
  }

  /** The output is the input's prefix before the first `.`, with its first
      `T` replaced: cutting first and replacing afterwards gives the same. */
  lemma FormatIsReplacedPrefix(iso: string)
    ensures FormatTimestamp(iso) == ReplaceFirst(FirstPiece(iso, '.'), 'T', ' ')
  {
    var p := FirstPiece(iso, '.');
    var r := FormatTimestamp(iso);
    var q := ReplaceFirst(p, 'T', ' ');
    var t := IndexOf(iso, 'T');
    if t < |p| {
      IndexOfUnique(p, 'T', t);
    } else {
      assert forall j :: 0 <= j < |p| ==> p[j] != 'T' by {
        forall j | 0 <= j < |p| ensures p[j] != 'T' {
          assert iso[j] == p[j];
        }
      }
      IndexOfUnique(p, 'T', |p|);
    }
    assert |r| == |q|;
    forall i | 0 <= i < |r| ensures r[i] == q[i] {
    }
  }

  /** `YYYY-MM-DDTHH:mm:ss.sssZ`, the form `toJSON` gives for years 0 to 9999. */
  predicate IsIsoInstant(s: string)
  {
    && |s| == 24
    && (forall i :: i in {0, 1, 2, 3, 5, 6, 8, 9, 11, 12, 14, 15, 17, 18, 20, 21, 22} ==> IsDigit(s[i]))
    && s[4] == '-' && s[7] == '-' && s[10] == 'T'
    && s[13] == ':' && s[16] == ':' && s[19] == '.' && s[23] == 'Z'
  }

  /** An ISO instant is shown as `YYYY-MM-DD HH:mm:ss`. */
  lemma FormatIsoInstant(s: string)
    requires IsIsoInstant(s)
    ensures FormatTimestamp(s) == s[..10] + " " + s[11..19]
    ensures |FormatTimestamp(s)| == 19
  {
    assert forall j :: 0 <= j < 10 ==> s[j] != 'T' by {
      forall j | 0 <= j < 10 ensures s[j] != 'T' {
        assert j == 4 || j == 7 || IsDigit(s[j]);
      }
    }
    IndexOfUnique(s, 'T', 10);
    assert forall j :: 0 <= j < 19 ==> s[j] != '.' by {
      forall j | 0 <= j < 19 ensures s[j] != '.' {
        assert j == 4 || j == 7 || j == 10 || j == 13 || j == 16 || IsDigit(s[j]);
      }
    }
    IndexOfUnique(s, '.', 19);
  }

  /** A listed user, its timestamps in their `toJSON` form; `lastLogin` is
      `null` until the user first logs in. */
  datatype ListedUser = ListedUser(username: string, createdAt: string, lastLogin: Option<string>)

  /** One table row: name, created-at cell, last-login cell. */
  datatype Row = Row(name: string, createdAt: string, lastLogin: string)

  /** `item.lastLogin ? <formatted> : "-"`. */
  function LastLoginCell(lastLogin: Option<string>): string
  {
    match lastLogin
    case None => "-"
    case Some(iso) => FormatTimestamp(iso)
  }

  /** The row for one user. */
  function RenderRow(user: ListedUser): Row
  {
    Row(user.username, FormatTimestamp(user.createdAt), LastLoginCell(user.lastLogin))
  }

  /** The `-` placeholder cannot be mistaken for a formatted ISO instant, and a
      present last login is written by the same rule as the creation time. */
  lemma LastLoginCellDistinct(user: ListedUser)
    ensures user.lastLogin.None? ==> RenderRow(user).lastLogin == "-"
    ensures user.lastLogin == Some(user.createdAt) ==> RenderRow(user).lastLogin == RenderRow(user).createdAt
    ensures user.lastLogin.Some? && IsIsoInstant(user.lastLogin.value) ==> RenderRow(user).lastLogin != "-"
  {
    if user.lastLogin.Some? && IsIsoInstant(user.lastLogin.value) {
      FormatIsoInstant(user.lastLogin.value);
    }
  }

  /** The rows for a list, one per user in order. */
  function RenderRows(users: seq<ListedUser>): (rows: seq<Row>)
    ensures |rows| == |users|
    ensures forall i :: 0 <= i < |users| ==> rows[i] == RenderRow(users[i])
  {
    if users == [] then [] else [RenderRow(users[0])] + RenderRows(users[1..])
  }

  /** `<For each={users() ?? false}>`: an absent list renders no rows, like an
      empty one. */
  function Rows(users: Option<seq<ListedUser>>): (rows: seq<Row>)
    ensures users.None? ==> rows == []
    ensures users.Some? ==> |rows| == |users.value|
    ensures users.Some? ==> forall i :: 0 <= i < |rows| ==> rows[i] == RenderRow(users.value[i])
  {
    match users
    case None => []
    case Some(list) => RenderRows(list)
  }

  /** The `Empty` fallback is shown exactly when there is no row: for an
      absent list and for an empty one. */
  function ShowsFallback(users: Option<seq<ListedUser>>): (b: bool)
    ensures b <==> users.None? || users.value == []
  {
    Rows(users) == []
  }
}
