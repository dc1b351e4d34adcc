/** The leaderboard: which entries are listed and with what rank, the tab title, and the short address. */
module LeaderboardView {
  import opened Wrappers

  /** An entry of the ledger's `getTopN` board. */
  datatype BoardEntry = BoardEntry(user: string, score: int, timestamp: int)

  /** A listed row. */
  datatype Row = Row(rank: int, address: string, score: int, timestamp: int)

  /** The rank cell's marks. */
  datatype Mark = Gold | Silver | Bronze | Numbered(rank: int)

  /** The address the ledger uses for an empty slot of the board. */
  const ZeroAddress: string := "0x0000000000000000000000000000000000000000"

  /** The tab titles, by leaderboard type. */
  const Names: seq<string> := ["Points", "Streak", "Best Streak", "Accuracy", "Total Predictions"]

  /** The board without its empty slots, in the board's order. */
  function Occupied(board: seq<BoardEntry>): (r: seq<BoardEntry>)
    ensures |r| <= |board|
    ensures forall e :: e in r ==> e in board && e.user != ZeroAddress
    ensures forall e :: e in board && e.user != ZeroAddress ==> e in r
  {
    if board == [] then []
    else (if board[0].user != ZeroAddress then [board[0]] else []) + Occupied(board[1..])
  }

  /** Dropping empty slots commutes with concatenation, so the listed entries keep their relative order. */
  lemma {:induction false} OccupiedAppend(a: seq<BoardEntry>, b: seq<BoardEntry>)
    ensures Occupied(a + b) == Occupied(a) + Occupied(b)
    decreases |a|
  {
    if a != [] {
      assert (a + b)[1..] == a[1..] + b;
      OccupiedAppend(a[1..], b);
    } else {
      assert a + b == b;
    }
  }

  /** Rows numbered from 1 in the given order. */
  function Ranked(entries: seq<BoardEntry>): (rows: seq<Row>)
    ensures |rows| == |entries|
  {
    seq(|entries|, i requires 0 <= i < |entries| =>
      Row(i + 1, entries[i].user, entries[i].score, entries[i].timestamp))
  }

  /** The rows `loadLeaderboard` builds from a board. */
  function Rows(board: seq<BoardEntry>): (rows: seq<Row>)
    ensures |rows| <= |board|
    ensures forall i :: 0 <= i < |rows| ==> rows[i].rank == i + 1 && rows[i].address != ZeroAddress
  {
    Ranked(Occupied(board))
  }

  /**
   * The listed rows are exactly the occupied entries, in board order, ranked
   * 1..n (n ranks in 1..n, strictly increasing) and each row carries its entry.
   */
  lemma RowsSpec(board: seq<BoardEntry>)
    ensures var rows := Rows(board); var kept := Occupied(board);
      |rows| == |kept| &&
      (forall r :: r in rows ==> 1 <= r.rank <= |rows|) &&
      (forall i, j :: 0 <= i < j < |rows| ==> rows[i].rank < rows[j].rank) &&
      forall i :: 0 <= i < |rows| ==>
        rows[i].address == kept[i].user && rows[i].score == kept[i].score &&
        rows[i].timestamp == kept[i].timestamp
  {
  }

  /** A board with no empty slot is listed in full, in order. */
  lemma FullBoardListed(board: seq<BoardEntry>)
    requires forall i :: 0 <= i < |board| ==> board[i].user != ZeroAddress
    ensures |Rows(board)| == |board|
    ensures forall i :: 0 <= i < |board| ==> Rows(board)[i].address == board[i].user
  {
    OccupiedKeepsAll(board);
  }

  lemma {:induction false} OccupiedKeepsAll(board: seq<BoardEntry>)
    requires forall i :: 0 <= i < |board| ==> board[i].user != ZeroAddress
    ensures Occupied(board) == board
    decreases |board|
  {
    if board != [] {
      OccupiedKeepsAll(board[1..]);
    }
  }

  /**
   * `loadLeaderboard`: without a contract nothing happens; a failed fetch keeps
   * the current rows; a fetched board replaces them.
   */
  function LoadLeaderboard(current: seq<Row>, connected: bool, fetched: Option<seq<BoardEntry>>): (rows: seq<Row>)
    ensures !connected || fetched.None? ==> rows == current
    ensures connected && fetched.Some? ==> rows == Rows(fetched.value)
  {
    if !connected then current
    else match fetched
      case None => current
      case Some(board) => Rows(board)
  }

  /** `getLeaderboardName`: the title of a known type, and "Points" for any other. */
  function LeaderboardName(t: int): (name: string)
    ensures 0 <= t < |Names| ==> name == Names[t]
    ensures !(0 <= t < |Names|) ==> name == "Points"
    ensures name in Names
  {
    if 0 <= t < |Names| then Names[t] else "Points"
  }

  /** The title reads "Points" exactly for type 0 and for types outside the list. */
  lemma PointsTitle(t: int)
    ensures LeaderboardName(t) == "Points" <==> !(1 <= t < |Names|)
  {
    if 1 <= t < |Names| {
      assert Names[t] != "Points" by {
        assert Names[t][0] != 'P' || |Names[t]| != 6;
      }
    }
  }

  /** `s.slice(0, n)` for n >= 0. */
  function Head(s: string, n: nat): (r: string)
    ensures |r| == Min(|s|, n)
    ensures r == s[..|r|]
  {
    if |s| <= n then s else s[..n]
  }

  /** `s.slice(-n)` for n > 0. */
  function Tail(s: string, n: nat): (r: string)
    requires n > 0
    ensures |r| == Min(|s|, n)
    ensures r == s[|s| - |r|..]
  {
    if |s| <= n then s else s[|s| - n..]
  }

  /** `formatAddress`: the first six characters, "...", and the last four. */
  function FormatAddress(address: string): (r: string)
    ensures |r| == Min(|address|, 6) + 3 + Min(|address|, 4)
    ensures r[..Min(|address|, 6)] == address[..Min(|address|, 6)]
    ensures r[Min(|address|, 6)..Min(|address|, 6) + 3] == "..."
    ensures r[|r| - Min(|address|, 4)..] == address[|address| - Min(|address|, 4)..]
  {
    var h, t := Head(address, 6), Tail(address, 4);
    SliceParts(h, "...", t);
    h + "..." + t
  }

  /** The three parts of a concatenation are its slices. */
  lemma SliceParts(a: string, b: string, c: string)
    ensures (a + b + c)[..|a|] == a
    ensures (a + b + c)[|a|..|a| + |b|] == b
    ensures (a + b + c)[|a| + |b|..] == c
  {
  }

  function Min(a: int, b: int): int
  {
    if a <= b then a else b
  }

  /** A full 42-character address is shown as 13 characters: "0x" and four hex digits, "...", four hex digits. */
  lemma FormatFullAddress(address: string)
    requires |address| == 42
    ensures |FormatAddress(address)| == 13
    ensures FormatAddress(address) == address[..6] + "..." + address[38..]
  {
  }

  /** The marks the rank cell renders: a medal for ranks 1 to 3, `#n` above 3, nothing below 1. */
  function RankMarks(rank: int): (marks: seq<Mark>)
    ensures rank >= 1 ==> |marks| == 1
    ensures rank < 1 ==> marks == []
    ensures rank > 3 ==> marks == [Numbered(rank)]
  {
    (if rank == 1 then [Gold] else []) +
    (if rank == 2 then [Silver] else []) +
    (if rank == 3 then [Bronze] else []) +
    (if rank > 3 then [Numbered(rank)] else [])
  }

  /** Every listed row shows exactly one mark, and the three medals go to the first three rows. */
  lemma ListedRowsShowOneMark(board: seq<BoardEntry>)
    ensures forall i :: 0 <= i < |Rows(board)| ==> |RankMarks(Rows(board)[i].rank)| == 1
    ensures forall i :: 0 <= i < |Rows(board)| && i < 3 ==>
      RankMarks(Rows(board)[i].rank) == [if i == 0 then Gold else if i == 1 then Silver else Bronze]
  {
  }
}
