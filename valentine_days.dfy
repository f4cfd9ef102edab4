/** The fixed table of the eight Valentine days, the path-to-day lookup built from it by
    a left fold, and the list of valid paths. */
module ValentineDays {

  datatype ValentineDay = ValentineDay(
    name: string,
    path: string,
    emoji: string,
    color: string,
    description: string,
    message: string,
    bgPhoto: string)
  {
    /** `bgImage`: the Unsplash image the table names, at the size and quality all eight
        entries share. */
    function BgImage(): string {
      "https://images.unsplash.com/" + bgPhoto + "?auto=format&fit=crop&w=1600&q=80"
    }
  }

  /** `VALENTINE_DAYS`, in calendar order. */
  const Days: seq<ValentineDay> := [
    ValentineDay("Rose Day", "rose", "🌹", "from-red-500 via-rose-500 to-pink-500",
      "Express your love with roses", "A rose for you, and all my heart behind it 🌹",
      "photo-1518895949257-7621c3c786d7"),
    ValentineDay("Propose Day", "propose", "💍", "from-fuchsia-500 via-pink-500 to-rose-500",
      "Pop the question!", "Today and always, I choose you 💍",
      "photo-1522673607200-164d1b6ce486"),
    ValentineDay("Chocolate Day", "chocolate", "🍫", "from-amber-700 via-orange-600 to-rose-500",
      "Sweeten the day", "Life with you is sweeter than any chocolate 🍫",
      "photo-1549007994-cb92caebd54b"),
    ValentineDay("Teddy Day", "teddy", "🧸", "from-amber-400 via-rose-400 to-pink-500",
      "Cuddles and comfort", "A teddy hug from me to you 🧸",
      "photo-1519014816548-bf5fe059798b"),
    ValentineDay("Promise Day", "promise", "🤝", "from-blue-500 via-indigo-500 to-purple-500",
      "Make lasting promises", "I promise to keep choosing us, every day 🤝",
      "photo-1494774157365-9e04c6720e47"),
    ValentineDay("Hug Day", "hug", "🤗", "from-teal-500 via-cyan-500 to-blue-500",
      "Warm embraces", "In your arms is my favorite home 🤗",
      "photo-1494774157365-9e04c6720e47"),
    ValentineDay("Kiss Day", "kiss", "💋", "from-rose-500 via-pink-500 to-fuchsia-500",
      "Sealed with a kiss", "Every kiss from you still feels like magic 💋",
      "photo-1516589091380-5d8e87df6999"),
    ValentineDay("Valentine's Day", "valentine", "❤️", "from-red-500 via-pink-500 to-rose-600",
      "The ultimate day of love", "You are my forever Valentine ❤️",
      "photo-1516589178581-6cd7833ae3b2")
  ]

  /** `days.reduce((acc, day) => { acc[day.path] = day; return acc; }, acc)`. */
  function Index(days: seq<ValentineDay>, acc: map<string, ValentineDay>): map<string, ValentineDay> {
    if days == [] then acc else Index(days[1..], acc[days[0].path := days[0]])
  }

  /** `VALENTINE_DAY_MAP`. */
  function DayMap(): map<string, ValentineDay> {
    Index(Days, map[])
  }

  /** `days.map((day) => day.path)`. */
  function Paths(days: seq<ValentineDay>): (r: seq<string>)
    ensures |r| == |days| && forall i :: 0 <= i < |days| ==> r[i] == days[i].path
  {
    seq(|days|, i requires 0 <= i < |days| => days[i].path)
  }

  /** `VALID_DAY_PATHS`. */
  function ValidDayPaths(): seq<string> {
    Paths(Days)
  }

  predicate DistinctPaths(days: seq<ValentineDay>) {
    forall i, j :: 0 <= i < j < |days| ==> days[i].path != days[j].path
  }

  /** There are exactly eight days and their paths are pairwise distinct. */
  lemma DaysShape()
    ensures |Days| == 8 && DistinctPaths(Days)
  {
    DaysPaths();
    forall i, j | 0 <= i < j < |Days| ensures Days[i].path != Days[j].path {
      assert Days[i].path == ValidDayPaths()[i] && Days[j].path == ValidDayPaths()[j];
    }
  }

  /** `VALID_DAY_PATHS` lists the eight paths in calendar order. */
  lemma DaysPaths()
    ensures |Days| == 8
    ensures ValidDayPaths() == ["rose", "propose", "chocolate", "teddy", "promise", "hug", "kiss", "valentine"]
  {
  }

  function PathSet(days: seq<ValentineDay>): set<string> {
    set i | 0 <= i < |days| :: days[i].path
  }

  lemma PathSetCons(days: seq<ValentineDay>)
    requires days != []
    ensures PathSet(days) == {days[0].path} + PathSet(days[1..])
  {
    forall p | p in PathSet(days) ensures p in {days[0].path} + PathSet(days[1..]) {
      var i :| 0 <= i < |days| && days[i].path == p;
      if i > 0 { assert days[1..][i - 1].path == p; }
    }
  }

  /** The keys of the fold are the starting keys plus every path. */
  lemma {:induction false} IndexKeys(days: seq<ValentineDay>, acc: map<string, ValentineDay>)
    ensures Index(days, acc).Keys == acc.Keys + PathSet(days)
  {
    if days != [] {
      IndexKeys(days[1..], acc[days[0].path := days[0]]);
      PathSetCons(days);
    }
  }

  /** No step of the fold overwrites an entry when the paths are distinct and new: the
      lookup grows by one entry per day. */
  lemma {:induction false} IndexSize(days: seq<ValentineDay>, acc: map<string, ValentineDay>)
    requires DistinctPaths(days)
    requires forall i :: 0 <= i < |days| ==> days[i].path !in acc
    ensures |Index(days, acc)| == |acc| + |days|
  {
    if days != [] {
      var acc' := acc[days[0].path := days[0]];
      assert |acc'| == |acc| + 1;
      assert forall i :: 0 <= i < |days[1..]| ==> days[1..][i].path == days[i + 1].path;
      IndexSize(days[1..], acc');
    }
  }

  /** After the fold, the entry for a day's path is that day when paths are distinct. */
  lemma {:induction false} IndexAt(days: seq<ValentineDay>, acc: map<string, ValentineDay>)
    requires DistinctPaths(days)
    ensures forall i :: 0 <= i < |days| ==>
      days[i].path in Index(days, acc) && Index(days, acc)[days[i].path] == days[i]
  {
    if days != [] {
      var acc' := acc[days[0].path := days[0]];
      IndexAt(days[1..], acc');
      IndexUntouched(days[1..], acc', days[0].path);
      forall i | 1 <= i < |days|
        ensures days[i].path in Index(days, acc) && Index(days, acc)[days[i].path] == days[i]
      {
        assert days[1..][i - 1] == days[i];
      }
    }
  }

  /** A key that no remaining day has keeps its accumulated entry. */
  lemma {:induction false} IndexUntouched(days: seq<ValentineDay>, acc: map<string, ValentineDay>, k: string)
    requires k in acc
    requires forall i :: 0 <= i < |days| ==> days[i].path != k
    ensures k in Index(days, acc) && Index(days, acc)[k] == acc[k]
  {
    if days != [] {
      IndexUntouched(days[1..], acc[days[0].path := days[0]], k);
    }
  }

  /** A fold from the empty lookup over a table with distinct paths has exactly the
      table's paths as keys, one entry per day, and maps each path to its own day. */
  lemma IndexCorrect(days: seq<ValentineDay>)
    requires DistinctPaths(days)
    ensures Index(days, map[]).Keys == PathSet(days)
    ensures |Index(days, map[])| == |days|
    ensures forall i :: 0 <= i < |days| ==> Index(days, map[])[days[i].path] == days[i]
    ensures forall p :: p in Index(days, map[]) ==> Index(days, map[])[p].path == p
  {
    IndexKeys(days, map[]);
    IndexSize(days, map[]);
    IndexAt(days, map[]);
    forall p | p in Index(days, map[]) ensures Index(days, map[])[p].path == p {
      var i :| 0 <= i < |days| && days[i].path == p;
    }
  }

  /** `VALENTINE_DAY_MAP` has exactly the table's paths as keys, eight of them, and the
      entry for a path is the day with that path. */
  lemma DayMapCorrect()
    ensures DayMap().Keys == PathSet(Days)
    ensures |DayMap()| == 8
    ensures forall p :: p in DayMap() ==> DayMap()[p].path == p
    ensures forall i :: 0 <= i < |Days| ==> DayMap()[Days[i].path] == Days[i]
  {
    DaysShape();
    IndexCorrect(Days);
  }

  /** The key facts of `VALENTINE_DAY_MAP` alone: the eight paths of the table. */
  lemma DayMapKeys()
    ensures DayMap().Keys == PathSet(Days) && |PathSet(Days)| == 8
  {
    DayMapCorrect();
  }

  /** A path is valid exactly when it is a key of the lookup. */
  lemma ValidPathsAreKeys(p: string)
    ensures p in ValidDayPaths() <==> p in DayMap()
  {
    DayMapCorrect();
    if p in ValidDayPaths() {
      var i :| 0 <= i < |Days| && ValidDayPaths()[i] == p;
      assert Days[i].path == p;
    }
    if p in DayMap() {
      var i :| 0 <= i < |Days| && Days[i].path == p;
      assert ValidDayPaths()[i] == p;
    }
  }

  /** Every day carries a non-empty default message and name, which the public page
      falls back to. */
  lemma DefaultsNonEmpty()
    ensures forall i :: 0 <= i < |Days| ==> Days[i].message != "" && Days[i].name != ""
  {
  }
}
