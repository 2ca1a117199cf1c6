/** The leaderboard: rank icons, avatar initials and the selected-user popup. */
module PointTable {
  import opened Wrappers
  import Initials

  datatype RankIcon = Crown | Medal | Award | Trophy

  datatype LeaderRow = LeaderRow(rank: int, name: string, xp: int, badge: string, color: string)

  const LeaderboardData: seq<LeaderRow> := [
    LeaderRow(1, "Sarah Mitchell", 2450, "Master", "from-yellow-400 to-amber-500"),
    LeaderRow(2, "Kevin Zhang", 2180, "Expert", "from-slate-300 to-slate-400"),
    LeaderRow(3, "Maria Garcia", 1950, "Pro", "from-orange-400 to-amber-600"),
    LeaderRow(4, "James Wilson", 1720, "Advanced", "from-blue-400 to-blue-500"),
    LeaderRow(5, "Nina Patel", 1580, "Skilled", "from-purple-400 to-purple-500"),
    LeaderRow(6, "Tom Anderson", 1340, "Rising", "from-green-400 to-green-500")
  ]

  /** `getRankIcon`: the three podium places get their own icon, everyone else a trophy. */
  function GetRankIcon(rank: int): (r: RankIcon)
    ensures r == Crown <==> rank == 1
    ensures r == Medal <==> rank == 2
    ensures r == Award <==> rank == 3
    ensures r == Trophy <==> rank < 1 || rank > 3
  {
    match rank
    case 1 => Crown
    case 2 => Medal
    case 3 => Award
    case _ => Trophy
  }

  /** The avatar text of a row. */
  function RowInitials(row: LeaderRow): (r: string)
    ensures r == Initials.WordStarts(row.name, true)
  {
    Initials.InitialsAreWordStarts(row.name);
    Initials.Of(row.name)
  }

  /**
   * The fixture lists ranks 1 to 6 in order, with experience strictly falling
   * as the rank number grows; so exactly the first row wears the crown.
   */
  lemma LeaderboardWellFormed()
    ensures forall i :: 0 <= i < |LeaderboardData| ==> LeaderboardData[i].rank == i + 1
    ensures forall i, j :: 0 <= i < j < |LeaderboardData| ==> LeaderboardData[i].xp > LeaderboardData[j].xp
    ensures forall i :: 0 <= i < |LeaderboardData| ==> (GetRankIcon(LeaderboardData[i].rank) == Crown <==> i == 0)
  {
  }

  /** The leader's avatar reads "SM". */
  lemma LeaderInitials()
    ensures RowInitials(LeaderboardData[0]) == "SM"
  {
    Initials.InitialsExamples();
    Initials.InitialsAreWordStarts("Sarah Mitchell");
  }

  /** The popup's state. */
  class Leaderboard {
    var selectedUser: Option<LeaderRow>

    constructor ()
      ensures selectedUser == None
    {
      selectedUser := None;
    }

    /** A click on the row at `index`. */
    method SelectRow(index: nat)
      requires index < |LeaderboardData|
      modifies this
      ensures selectedUser == Some(LeaderboardData[index])
    {
      selectedUser := Some(LeaderboardData[index]);
    }

    /** The popup's backdrop and its X button. */
    method Close()
      modifies this
      ensures selectedUser == None
    {
      selectedUser := None;
    }
  }
}
