/** The editor's game-database export: each collection is rendered by a loop
    that appends `,` whenever its accumulator is already non-empty, skips
    null entries where the collection may hold them, and wraps the result in
    `{}` or `[]`; the sections are then combined into one JSON document. */
module Export {
  import opened Base

  /** The reference separator-join: the pieces in order with one `,`
      between each two neighbours. */
  function CommaJoin(ps: seq<string>): string
  {
    if ps == [] then "" else if |ps| == 1 then ps[0] else ps[0] + "," + CommaJoin(ps[1..])
  }

  /** The non-null entries, in order. */
  function Present(entries: seq<Option<string>>): (ps: seq<string>)
    ensures |ps| <= |entries|
  {
    if entries == [] then []
    else (if entries[0].Some? then [entries[0].value] else []) + Present(entries[1..])
  }

  /** The pieces from the first non-empty one on. */
  function DropLeadingEmpty(ps: seq<string>): (r: seq<string>)
    ensures r == [] || r[0] != ""
  {
    if ps == [] then [] else if ps[0] == "" then DropLeadingEmpty(ps[1..]) else ps
  }

  lemma {:induction false} PresentSnoc(entries: seq<Option<string>>, x: Option<string>)
    ensures Present(entries + [x]) == Present(entries) + (if x.Some? then [x.value] else [])
  {
    if entries == [] {
      assert entries + [x] == [x];
    } else {
      var head := if entries[0].Some? then [entries[0].value] else [];
      var tail := if x.Some? then [x.value] else [];
      assert (entries + [x])[0] == entries[0];
      assert (entries + [x])[1..] == entries[1..] + [x];
      calc {
        Present(entries + [x]);
        head + Present(entries[1..] + [x]);
        { PresentSnoc(entries[1..], x); }
        head + (Present(entries[1..]) + tail);
        (head + Present(entries[1..])) + tail;
      }
    }
  }

  lemma {:induction false} DropLeadingEmptySnoc(ps: seq<string>, p: string)
    ensures DropLeadingEmpty(ps + [p])
         == if DropLeadingEmpty(ps) == [] then (if p == "" then [] else [p]) else DropLeadingEmpty(ps) + [p]
  {
    if ps == [] {
      assert ps + [p] == [p];
    } else {
      assert (ps + [p])[0] == ps[0];
      assert (ps + [p])[1..] == ps[1..] + [p];
      DropLeadingEmptySnoc(ps[1..], p);
    }
  }

  /** Joining one more piece onto a non-empty list adds `,` and the piece. */
  lemma {:induction false} CommaJoinSnoc(ps: seq<string>, p: string)
    requires ps != []
    ensures CommaJoin(ps + [p]) == CommaJoin(ps) + "," + p
  {
    if |ps| == 1 {
      assert ps + [p] == [ps[0], p];
      assert [ps[0], p][1..] == [p];
    } else {
      assert (ps + [p])[0] == ps[0];
      assert (ps + [p])[1..] == ps[1..] + [p];
      CommaJoinSnoc(ps[1..], p);
    }
  }

  /** The join begins with its first piece. */
  lemma CommaJoinStartsWithFirst(ps: seq<string>)
    requires ps != []
    ensures |ps[0]| <= |CommaJoin(ps)| && CommaJoin(ps)[..|ps[0]|] == ps[0]
  {
  }

  /** The accumulator loop of every export section: the result is the
      separator-join of the non-null pieces from the first non-empty one on.
      (The loop tests the accumulator for emptiness, not "is this the first
      piece", so empty pieces before any non-empty one leave no trace.) */
  method JoinPieces(entries: seq<Option<string>>) returns (acc: string)
    ensures acc == CommaJoin(DropLeadingEmpty(Present(entries)))
  {
    acc := "";
    for i := 0 to |entries|
      invariant acc == CommaJoin(DropLeadingEmpty(Present(entries[..i])))
    {
      assert entries[..i + 1] == entries[..i] + [entries[i]];
      PresentSnoc(entries[..i], entries[i]);
      if entries[i].None? {
        assert Present(entries[..i]) + [] == Present(entries[..i]);
        continue;
      }
      ghost var done := DropLeadingEmpty(Present(entries[..i]));
      ghost var p := entries[i].value;
      assert Present(entries[..i + 1]) == Present(entries[..i]) + [p];
      DropLeadingEmptySnoc(Present(entries[..i]), p);
      if done != [] {
        CommaJoinStartsWithFirst(done);
        CommaJoinSnoc(done, p);
        assert acc != "";
      } else {
        assert acc == "";
      }
      if acc != "" {
        acc := acc + ",";
      }
      acc := acc + entries[i].value;
    }
    assert entries[..|entries|] == entries;
  }

  /** When every non-null piece is non-empty, as every piece the export
      builds from quoted keys and ids is, the loop's result is exactly the
      separator-join of the non-null pieces. */
  lemma NonEmptyPiecesJoin(ps: seq<string>)
    requires forall i :: 0 <= i < |ps| ==> ps[i] != ""
    ensures DropLeadingEmpty(ps) == ps
  {
  }

  /** The accumulator stays empty exactly when no non-null piece is
      non-empty; in particular an empty or all-null collection gives `[]`
      or `{}` once wrapped. */
  lemma {:induction false} JoinEmptyIff(ps: seq<string>)
    ensures CommaJoin(DropLeadingEmpty(ps)) == "" <==> forall i :: 0 <= i < |ps| ==> ps[i] == ""
  {
    if ps != [] {
      JoinEmptyIff(ps[1..]);
      if ps[0] != "" {
        CommaJoinStartsWithFirst(ps);
      }
      assert (forall i :: 0 <= i < |ps| ==> ps[i] == "")
         <==> ps[0] == "" && (forall i :: 0 <= i < |ps[1..]| ==> ps[1..][i] == "");
    }
  }

  /** Pieces free of commas are separated by exactly one comma each: the
      join of n such pieces holds n - 1 commas. */
  lemma {:induction false} CommaJoinSeparators(ps: seq<string>)
    requires ps != []
    requires forall i :: 0 <= i < |ps| ==> ',' !in ps[i]
    ensures Count(CommaJoin(ps), ',') == |ps| - 1
  {
    CountPositive(ps[0], ',');
    if |ps| > 1 {
      CommaJoinSeparators(ps[1..]);
      CountAppend(ps[0], "," + CommaJoin(ps[1..]), ',');
      CountAppend(",", CommaJoin(ps[1..]), ',');
      assert ps[0] + "," + CommaJoin(ps[1..]) == ps[0] + ("," + CommaJoin(ps[1..]));
    }
  }

  /** A collection whose entries are all null has no pieces, so its section
      is the bare brackets. */
  lemma {:induction false} AllNullIsEmpty(entries: seq<Option<string>>)
    requires forall i :: 0 <= i < |entries| ==> entries[i].None?
    ensures Present(entries) == []
    ensures "[" + CommaJoin(DropLeadingEmpty(Present(entries))) + "]" == "[]"
  {
    if entries != [] {
      AllNullIsEmpty(entries[1..]);
    }
  }

  /** The rendering of one dictionary entry: the quoted key, `:`, the value's JSON. */
  function KeyValue(key: string, valueJson: string): (p: string)
    ensures |p| == |key| + |valueJson| + 3 && p[0] == '"' && p[|key| + 1..|key| + 3] == "\":"
  {
    "\"" + key + "\":" + valueJson
  }

  /** A quoted identifier. */
  function Quoted(id: string): (p: string)
    ensures |p| == |id| + 2 && p[0] == '"' && p[|p| - 1] == '"'
  {
    "\"" + id + "\""
  }

  /** Reference rendering of a dictionary section. */
  function ObjectJson(entries: seq<(string, string)>): string
  {
    "{" + CommaJoin(KeyValues(entries)) + "}"
  }

  /** Reference rendering of an array section of already rendered pieces. */
  function ArrayJson(entries: seq<Option<string>>): string
  {
    "[" + CommaJoin(Present(entries)) + "]"
  }

  /** Reference rendering of an array section of quoted identifiers. */
  function QuotedJson(ids: seq<Option<string>>): string
  {
    "[" + CommaJoin(QuotedPresent(ids)) + "]"
  }

  function KeyValues(entries: seq<(string, string)>): (ps: seq<string>)
    ensures |ps| == |entries|
    ensures forall i :: 0 <= i < |ps| ==> ps[i] == KeyValue(entries[i].0, entries[i].1)
  {
    seq(|entries|, i requires 0 <= i < |entries| => KeyValue(entries[i].0, entries[i].1))
  }

  /** The quoted non-null identifiers, in order. */
  function QuotedPresent(ids: seq<Option<string>>): (ps: seq<string>)
    ensures |ps| <= |ids|
    ensures forall i :: 0 <= i < |ps| ==> ps[i] != ""
  {
    if ids == [] then []
    else (if ids[0].Some? then [Quoted(ids[0].value)] else []) + QuotedPresent(ids[1..])
  }

  function AllPresent(xs: seq<string>): (r: seq<Option<string>>)
    ensures |r| == |xs| && forall i :: 0 <= i < |xs| ==> r[i] == Some(xs[i])
  {
    seq(|xs|, i requires 0 <= i < |xs| => Some(xs[i]))
  }

  lemma {:induction false} PresentAll(pieces: seq<Option<string>>, ps: seq<string>)
    requires |pieces| == |ps|
    requires forall i :: 0 <= i < |ps| ==> pieces[i] == Some(ps[i])
    ensures Present(pieces) == ps
  {
    if pieces != [] {
      PresentAll(pieces[1..], ps[1..]);
      assert ps == [ps[0]] + ps[1..];
    }
  }

  lemma {:induction false} PresentQuoted(ids: seq<Option<string>>, pieces: seq<Option<string>>)
    requires |pieces| == |ids|
    requires forall i :: 0 <= i < |ids| ==> pieces[i] == if ids[i].Some? then Some(Quoted(ids[i].value)) else None
    ensures Present(pieces) == QuotedPresent(ids)
  {
    if ids != [] {
      PresentQuoted(ids[1..], pieces[1..]);
    }
  }

  /** Dictionary sections: every entry is rendered as a quoted key and its
      value, so no piece is empty and the loop yields the plain join. */
  method ObjectSection(entries: seq<(string, string)>) returns (json: string)
    ensures json == ObjectJson(entries)
  {
    var pieces := seq(|entries|, i requires 0 <= i < |entries| => Some(KeyValue(entries[i].0, entries[i].1)));
    var body := JoinPieces(pieces);
    PresentAll(pieces, KeyValues(entries));
    NonEmptyPiecesJoin(KeyValues(entries));
    json := "{" + body + "}";
  }

  /** Array sections of quoted identifiers, skipping null entries. */
  method QuotedSection(ids: seq<Option<string>>) returns (json: string)
    ensures json == QuotedJson(ids)
  {
    var pieces := seq(|ids|, i requires 0 <= i < |ids| => if ids[i].Some? then Some(Quoted(ids[i].value)) else None);
    var body := JoinPieces(pieces);
    PresentQuoted(ids, pieces);
    NonEmptyPiecesJoin(QuotedPresent(ids));
    json := "[" + body + "]";
  }

  /** Array sections of rendered pieces (`ToJson()` results), skipping null
      entries. The pieces come from code outside this model, which may
      render an entry as empty text; such pieces drop out of the join until
      the first non-empty one. */
  method ArraySection(entries: seq<Option<string>>) returns (json: string)
    ensures json == "[" + CommaJoin(DropLeadingEmpty(Present(entries))) + "]"
    ensures (forall i :: 0 <= i < |Present(entries)| ==> Present(entries)[i] != "") ==> json == ArrayJson(entries)
  {
    var body := JoinPieces(entries);
    json := "[" + body + "]";
    if forall i :: 0 <= i < |Present(entries)| ==> Present(entries)[i] != "" {
      NonEmptyPiecesJoin(Present(entries));
    }
  }

  /** Decimal text of an integer, as string concatenation renders it. */
  function Decimal(n: int): string
  {
    if n < 0 then "-" + Digits(-n) else Digits(n)
  }

  function Digits(n: nat): string
  {
    if n < 10 then [('0' as int + n) as char] else Digits(n / 10) + [('0' as int + n % 10) as char]
  }

  /** What the exporter reads from the game database: every `ToJson()`
      result and every identifier already rendered as text, dictionaries as
      their key/value entries in enumeration order, and `None` for a null
      list entry (for start items: an entry or its item that is null). */
  datatype GameDatabase = GameDatabase(
    achievements: seq<(string, string)>,
    items: seq<(string, string)>,
    softCurrency: string, hardCurrency: string,
    stageStamina: string, arenaStamina: string,
    formations: seq<string>,
    stages: seq<(string, string)>,
    lootBoxes: seq<(string, string)>,
    iapPackages: seq<(string, string)>,
    hardCurrencyConvertions: seq<string>,
    startItems: seq<Option<string>>,
    startCharacters: seq<Option<string>>,
    unlockStages: seq<Option<string>>,
    arenaRanks: seq<Option<string>>,
    arenaWinScoreIncrease: int,
    arenaLoseScoreDecrease: int,
    playerMaxLevel: int,
    playerExpTable: string,
    revivePrice: int,
    resetItemLevelAfterEvolve: bool)

  datatype GameInstance = GameInstance(gameDatabase: Option<GameDatabase>)

  datatype ExportError = NoGameInstance | NoGameDatabase

  /** What an export run did: failed before rendering, rendered but was not
      saved (the save dialog returned an empty path), or wrote the document. */
  datatype ExportOutcome = Failed(reason: ExportError) | NotSaved | Written(path: string, contents: string)

  /** The rendered sections of one export, in document order. */
  datatype Sections = Sections(
    achievements: string, items: string, currencies: string, staminas: string,
    formations: string, stages: string, lootBoxes: string, iapPackages: string,
    hardCurrencyConvertions: string, startItems: string, startCharacters: string,
    unlockStages: string, arenaRanks: string)

  /** The layout of the combined document around its rendered sections. */
  function Layout(s: Sections, db: GameDatabase): string
  {
    "{" +
    "\"achievements\":" + s.achievements + "," +
    "\"items\":" + s.items + "," +
    "\"currencies\":" + s.currencies + "," +
    "\"staminas\":" + s.staminas + "," +
    "\"formations\":" + s.formations + "," +
    "\"stages\":" + s.stages + "," +
    "\"lootBoxes\":" + s.lootBoxes + "," +
    "\"iapPackages\":" + s.iapPackages + "," +
    "\"hardCurrencyConvertions\":" + s.hardCurrencyConvertions + "," +
    "\"startItems\":" + s.startItems + "," +
    "\"startCharacters\":" + s.startCharacters + "," +
    "\"unlockStages\":" + s.unlockStages + "," +
    "\"arenaRanks\":" + s.arenaRanks + "," +
    "\"arenaWinScoreIncrease\":" + Decimal(db.arenaWinScoreIncrease) + "," +
    "\"arenaLoseScoreDecrease\":" + Decimal(db.arenaLoseScoreDecrease) + "," +
    "\"playerMaxLevel\":" + Decimal(db.playerMaxLevel) + "," +
    "\"playerExpTable\":" + db.playerExpTable + "," +
    "\"revivePrice\":" + Decimal(db.revivePrice) + "," +
    "\"resetItemLevelAfterEvolve\":" + (if db.resetItemLevelAfterEvolve then "1" else "0") + "}"
  }

  /** The reference rendering of every section of `db`. */
  function ReferenceSections(db: GameDatabase): Sections
  {
    Sections(
      ObjectJson(db.achievements), ObjectJson(db.items),
      "{\"SOFT_CURRENCY\":" + db.softCurrency + ", \"HARD_CURRENCY\":" + db.hardCurrency + "}",
      "{\"STAGE\":" + db.stageStamina + ", \"ARENA\":" + db.arenaStamina + "}",
      QuotedJson(AllPresent(db.formations)),
      ObjectJson(db.stages), ObjectJson(db.lootBoxes), ObjectJson(db.iapPackages),
      "[" + CommaJoin(DropLeadingEmpty(db.hardCurrencyConvertions)) + "]",
      "[" + CommaJoin(DropLeadingEmpty(Present(db.startItems))) + "]",
      QuotedJson(db.startCharacters), QuotedJson(db.unlockStages),
      "[" + CommaJoin(DropLeadingEmpty(Present(db.arenaRanks))) + "]")
  }

  /** The export command: fails without a game instance or a game database,
      otherwise renders every section and writes the document to `savePath`
      when the save dialog returned a non-empty path. */
  method ExportGameDatabase(instance: Option<GameInstance>, savePath: string) returns (outcome: ExportOutcome)
    ensures instance == None ==> outcome == Failed(NoGameInstance)
    ensures instance != None && instance.value.gameDatabase == None ==> outcome == Failed(NoGameDatabase)
    ensures instance != None && instance.value.gameDatabase != None ==>
      var db := instance.value.gameDatabase.value;
      outcome == if |savePath| > 0 then Written(savePath, Layout(ReferenceSections(db), db)) else NotSaved
  {
    if instance == None {
      return Failed(NoGameInstance);
    }
    if instance.value.gameDatabase == None {
      return Failed(NoGameDatabase);
    }
    var db := instance.value.gameDatabase.value;
    var achievementsJson := ObjectSection(db.achievements);
    var itemsJson := ObjectSection(db.items);
    var currenciesJson := "{\"SOFT_CURRENCY\":" + db.softCurrency + ", \"HARD_CURRENCY\":" + db.hardCurrency + "}";
    var staminasJson := "{\"STAGE\":" + db.stageStamina + ", \"ARENA\":" + db.arenaStamina + "}";
    var formationsJson := QuotedSection(AllPresent(db.formations));
    var stagesJson := ObjectSection(db.stages);
    var lootBoxesJson := ObjectSection(db.lootBoxes);
    var iapPackagesJson := ObjectSection(db.iapPackages);
    var hardCurrencyConvertionsJson := ArraySection(AllPresent(db.hardCurrencyConvertions));
    PresentAll(AllPresent(db.hardCurrencyConvertions), db.hardCurrencyConvertions);
    var startItemsJson := ArraySection(db.startItems);
    var startCharactersJson := QuotedSection(db.startCharacters);
    var unlockStagesJson := QuotedSection(db.unlockStages);
    var arenaRanksJson := ArraySection(db.arenaRanks);
    var sections := Sections(
      achievementsJson, itemsJson, currenciesJson, staminasJson,
      formationsJson, stagesJson, lootBoxesJson, iapPackagesJson,
      hardCurrencyConvertionsJson, startItemsJson, startCharactersJson,
      unlockStagesJson, arenaRanksJson);
    assert sections == ReferenceSections(db);
    var jsonCombined := Layout(sections, db);
    if |savePath| > 0 {
      outcome := Written(savePath, jsonCombined);
    } else {
      outcome := NotSaved;
    }
  }
}
