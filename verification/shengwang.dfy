/** The twelve life stages (十二长生) of a heavenly stem measured against an
    earthly branch, read from a per-stem table of stage indices. The web app
    and the mini-program each carry their own table; the accessors are the
    same, so they are written once over a table parameter. */
module Shengwang {
  import opened JsRuntime
  import opened Ganzhi

  const States: seq<string> := ["长生", "沐浴", "冠带", "临官", "帝旺", "衰", "病", "死", "墓", "绝", "胎", "养"]

  const Unknown: string := "未知"

  /** For each stem, in Tiangan order, the stage index at each branch index.
      The source keys its rows by the stem's text; the keys are exactly the
      ten stems, so a row is found by the stem's index. */
  type Table = seq<seq<int>>

  /** The web app's table. */
  const SrcTable: Table := [
    /* 甲 */ [1, 2, 3, 4, 5, 6, 7, 8, 9, 10, 11, 0],
    /* 乙 */ [6, 5, 4, 3, 2, 1, 0, 11, 10, 9, 8, 7],
    /* 丙 */ [10, 11, 0, 1, 2, 3, 4, 5, 6, 7, 8, 9],
    /* 丁 */ [9, 8, 7, 6, 5, 4, 3, 2, 1, 0, 11, 10],
    /* 戊 */ [10, 11, 0, 1, 2, 3, 4, 5, 6, 7, 8, 9],
    /* 己 */ [9, 8, 7, 6, 5, 4, 3, 2, 1, 0, 11, 10],
    /* 庚 */ [7, 8, 9, 10, 11, 0, 1, 2, 3, 4, 5, 6],
    /* 辛 */ [0, 11, 10, 9, 8, 7, 6, 5, 4, 3, 2, 1],
    /* 壬 */ [4, 5, 6, 7, 8, 9, 10, 11, 0, 1, 2, 3],
    /* 癸 */ [3, 2, 1, 0, 11, 10, 9, 8, 7, 6, 5, 4]
  ]

  /** The mini-program's table. */
  const MiniTable: Table := [
    /* 甲 */ [11, 0, 1, 2, 3, 4, 5, 6, 7, 8, 9, 10],
    /* 乙 */ [6, 5, 4, 3, 2, 1, 0, 11, 10, 9, 8, 7],
    /* 丙 */ [9, 10, 11, 0, 1, 2, 3, 4, 5, 6, 7, 8],
    /* 丁 */ [2, 1, 0, 11, 10, 9, 8, 7, 6, 5, 4, 3],
    /* 戊 */ [9, 10, 11, 0, 1, 2, 3, 4, 5, 6, 7, 8],
    /* 己 */ [2, 1, 0, 11, 10, 9, 8, 7, 6, 5, 4, 3],
    /* 庚 */ [6, 7, 8, 9, 10, 11, 0, 1, 2, 3, 4, 5],
    /* 辛 */ [11, 10, 9, 8, 7, 6, 5, 4, 3, 2, 1, 0],
    /* 壬 */ [3, 4, 5, 6, 7, 8, 9, 10, 11, 0, 1, 2],
    /* 癸 */ [8, 7, 6, 5, 4, 3, 2, 1, 0, 11, 10, 9]
  ]

  /** The row of a stem whose first stage (at 子) is `start` and which moves
      one stage forwards (yang stems) or backwards (yin stems) per branch. */
  function Progression(start: int, forward: bool): (row: seq<int>)
    ensures |row| == 12
  {
    seq(12, j requires 0 <= j < 12 => (if forward then start + j else start - j) % 12)
  }

  /** Each of the twelve stages appears in the row exactly once. */
  predicate IsPermutation12(row: seq<int>)
  {
    |row| == 12 && (forall j :: 0 <= j < 12 ==> 0 <= row[j] < 12)
    && (forall k :: 0 <= k < 12 ==> k in row)
    && forall j, j' :: 0 <= j < j' < 12 ==> row[j] != row[j']
  }

  /** A table has a row for every stem; yang stems count forwards and yin
      stems backwards. */
  predicate Shaped(table: Table)
  {
    |table| == 10
    && forall i :: 0 <= i < 10 ==> |table[i]| == 12 && table[i] == Progression(table[i][0], i % 2 == 0)
  }

  /** A row that steps by one, forwards or backwards, visits every stage
      exactly once. */
  lemma ProgressionPermutation(start: int, forward: bool)
    ensures IsPermutation12(Progression(start, forward))
  {
    var row := Progression(start, forward);
    forall k | 0 <= k < 12 ensures k in row {
      var j := if forward then (k - start) % 12 else (start - k) % 12;
      if forward {
        assert start + j == k + 12 * (-((k - start) / 12));
        ModShift12(k, -((k - start) / 12));
      } else {
        assert start - j == k + 12 * ((start - k) / 12);
        ModShift12(k, (start - k) / 12);
      }
      assert row[j] == k;
    }
    forall j, j' | 0 <= j < j' < 12 ensures row[j] != row[j'] {
      StepsApart(start, forward, j, j');
    }
  }

  lemma StepsApart(r0: int, forward: bool, j: int, j': int)
    requires 0 <= j < 12 && 0 <= j' < 12 && j != j'
    ensures (if forward then r0 + j else r0 - j) % 12 != (if forward then r0 + j' else r0 - j') % 12
  {
    var a, b := (if forward then r0 + j else r0 - j), (if forward then r0 + j' else r0 - j');
    assert a == 12 * (a / 12) + a % 12;
    assert b == 12 * (b / 12) + b % 12;
  }

  lemma SrcTableShaped()
    ensures Shaped(SrcTable)
  {
    SrcYangRows();
    SrcYinRows();
  }

  lemma SrcYangRows()
    ensures var t := SrcTable; |t| == 10 && t[0] == Progression(1, true) && t[2] == Progression(10, true) && t[4] == Progression(10, true) && t[6] == Progression(7, true) && t[8] == Progression(4, true)
  {
  }

  lemma SrcYinRows()
    ensures var t := SrcTable; |t| == 10 && t[1] == Progression(6, false) && t[3] == Progression(9, false) && t[5] == Progression(9, false) && t[7] == Progression(0, false) && t[9] == Progression(3, false)
  {
  }

  lemma MiniTableShaped()
    ensures Shaped(MiniTable)
  {
    MiniYangRows();
    MiniYinRows();
  }

  lemma MiniYangRows()
    ensures var t := MiniTable; |t| == 10 && t[0] == Progression(11, true) && t[2] == Progression(9, true) && t[4] == Progression(9, true) && t[6] == Progression(6, true) && t[8] == Progression(3, true)
  {
  }

  lemma MiniYinRows()
    ensures var t := MiniTable; |t| == 10 && t[1] == Progression(6, false) && t[3] == Progression(2, false) && t[5] == Progression(2, false) && t[7] == Progression(11, false) && t[9] == Progression(8, false)
  {
  }

  /** Every row of the web app's table is a permutation of the twelve stages,
      yang rows count forwards, yin rows backwards, and the earth stems copy
      the fire stems (戊 = 丙, 己 = 丁). */
  lemma SrcTableRows(i: int)
    requires 0 <= i < 10
    ensures IsPermutation12(SrcTable[i])
    ensures SrcTable[i] == Progression(SrcTable[i][0], i % 2 == 0)
    ensures SrcTable[4] == SrcTable[2] && SrcTable[5] == SrcTable[3]
  {
    SrcTableShaped();
    ProgressionPermutation(SrcTable[i][0], i % 2 == 0);
  }

  /** The same shape holds for the mini-program's table. */
  lemma MiniTableRows(i: int)
    requires 0 <= i < 10
    ensures IsPermutation12(MiniTable[i])
    ensures MiniTable[i] == Progression(MiniTable[i][0], i % 2 == 0)
    ensures MiniTable[4] == MiniTable[2] && MiniTable[5] == MiniTable[3]
  {
    MiniTableShaped();
    ProgressionPermutation(MiniTable[i][0], i % 2 == 0);
  }

  /** getShengwangState: the stage of `tiangan` at `dizhi`, or 未知 when either
      is not recognised (or the table has nothing for it). */
  function StateIn(table: Table, tiangan: string, dizhi: string): (r: string)
    ensures !IsStem(tiangan) || !IsBranch(dizhi) ==> r == Unknown
    ensures r == Unknown || r in States
    ensures IsStem(tiangan) && IsBranch(dizhi) && Shaped(table) ==>
      r == States[table[StemIndex(tiangan)][BranchIndex(dizhi)]]
  {
    var ti := StemIndex(tiangan);
    var di := BranchIndex(dizhi);
    if ti == -1 || di == -1 then Unknown
    else if ti >= |table| then Unknown
    else
      var row := table[ti];
      if di < |row| && 0 <= row[di] < 12 then States[row[di]] else Unknown
  }

  lemma StatesDistinct()
    ensures forall a, b :: 0 <= a < b < 12 ==> States[a] != States[b]
    ensures Unknown !in States
  {
  }

  /** In a shaped table every recognised stem and branch get a named stage,
      and the stages of one stem are all different. */
  lemma StateInKnown(table: Table, i: int, j: int)
    requires Shaped(table) && 0 <= i < 10 && 0 <= j < 12
    ensures StateIn(table, Gan(i), Zhi(j)) != Unknown
    ensures forall j' :: 0 <= j' < 12 && j' != j ==> StateIn(table, Gan(i), Zhi(j')) != StateIn(table, Gan(i), Zhi(j))
  {
    var row := table[i];
    ProgressionPermutation(row[0], i % 2 == 0);
    StatesDistinct();
    forall j' | 0 <= j' < 12 ensures StateIn(table, Gan(i), Zhi(j')) == States[row[j']] {
      StemIndexOf(i);
      BranchIndexOf(j');
    }
  }

  /** In a shaped table a yang stem moves one stage on per branch and a yin
      stem one stage back, from its stage at 子. */
  lemma StateInProgression(table: Table, i: int, j: int)
    requires Shaped(table) && 0 <= i < 10 && 0 <= j < 12
    ensures StateIn(table, Gan(i), Zhi(j)) == States[(if i % 2 == 0 then table[i][0] + j else table[i][0] - j) % 12]
  {
    RowEntry(table, i, j);
    StemIndexOf(i);
    BranchIndexOf(j);
  }

  /** An entry of a shaped table, read off its row's progression. */
  lemma RowEntry(table: Table, i: int, j: int)
    requires Shaped(table) && 0 <= i < 10 && 0 <= j < 12
    ensures table[i][j] == (if i % 2 == 0 then table[i][0] + j else table[i][0] - j) % 12
  {
    assert table[i] == Progression(table[i][0], i % 2 == 0);
    ProgressionAt(table[i][0], i % 2 == 0, j);
  }

  /** The j-th entry of a progression. */
  lemma ProgressionAt(start: int, forward: bool, j: int)
    requires 0 <= j < 12
    ensures Progression(start, forward)[j] == (if forward then start + j else start - j) % 12
  {
  }

  /** The two tables disagree: 甲 at 亥 is 长生 (stage 0) in the web app and
      胎 (stage 10) in the mini-program. */
  lemma TablesDisagreeOnJiaHai()
    ensures StateIn(SrcTable, Gan(0), Zhi(11)) == States[0]
    ensures StateIn(MiniTable, Gan(0), Zhi(11)) == States[10]
  {
    StemIndexOf(0);
    BranchIndexOf(11);
  }

  datatype Level = Strong | Medium | Weak

  const StrongStates: seq<string> := ["长生", "临官", "帝旺", "养"]
  const MediumStates: seq<string> := ["冠带", "胎", "衰"]

  /** getShengwangLevel. */
  function LevelOf(state: string): (l: Level)
    ensures l == Strong <==> state in StrongStates
    ensures l == Medium <==> state !in StrongStates && state in MediumStates
  {
    if state in StrongStates then Strong
    else if state in MediumStates then Medium
    else Weak
  }

  /** Of the twelve stages four are strong, three medium and five weak, and
      anything that is not a stage (未知 included) is weak. */
  lemma LevelPartition(state: string)
    ensures state !in States ==> LevelOf(state) == Weak
    ensures LevelOf(state) == Strong <==> state in ["长生", "临官", "帝旺", "养"]
    ensures LevelOf(state) == Weak && state in States <==> state in ["沐浴", "病", "死", "墓", "绝"]
  {
  }

  /** getShengwangInfo without its description text: the stage's strength,
      with 5 for anything that is not a stage. */
  datatype Info = Info(state: string, description: string, strength: int)

  const Descriptions: map<string, (string, int)> := map[
    "长生" := ("如人初生，充满生机", 8),
    "沐浴" := ("如人沐浴，易受外界影响", 3),
    "冠带" := ("如人成年，开始担当", 6),
    "临官" := ("如人壮年，能力强盛", 9),
    "帝旺" := ("如人鼎盛，达到巅峰", 10),
    "衰" := ("如人衰老，力量减弱", 4),
    "病" := ("如人患病，虚弱无力", 2),
    "死" := ("如人死亡，毫无生机", 1),
    "墓" := ("如人入墓，潜藏不显", 3),
    "绝" := ("如人断绝，生机全无", 1),
    "胎" := ("如人受胎，孕育新生", 5),
    "养" := ("如人养育，逐渐成长", 7)
  ]

  function InfoOf(state: string): (r: Info)
    ensures r.state == state && 1 <= r.strength <= 10
    ensures state !in States ==> r.strength == 5 && r.description == "状态未知"
  {
    if state in Descriptions then Info(state, Descriptions[state].0, Descriptions[state].1)
    else Info(state, "状态未知", 5)
  }

  /** The levels are bands of the strength: strong stages have strength 7 to
      10, medium ones 4 to 6 and weak ones 1 to 3. 未知 breaks the pattern: it
      is weak but has the middle strength 5. */
  lemma LevelMatchesStrength(state: string)
    requires state in States
    ensures LevelOf(state) == Strong <==> InfoOf(state).strength >= 7
    ensures LevelOf(state) == Medium <==> 4 <= InfoOf(state).strength <= 6
    ensures LevelOf(state) == Weak <==> InfoOf(state).strength <= 3
  {
  }

  lemma UnknownStrength()
    ensures LevelOf(Unknown) == Weak && InfoOf(Unknown).strength == 5
  {
  }

  datatype StateLevel = StateLevel(state: string, level: Level)
  datatype SizhuShengwang = SizhuShengwang(year: StateLevel, month: StateLevel, day: StateLevel, hour: StateLevel)

  function Measure(table: Table, tian: string, monthDi: string): (r: StateLevel)
    ensures r.state == StateIn(table, tian, monthDi) && r.level == LevelOf(r.state)
  {
    var s := StateIn(table, tian, monthDi);
    StateLevel(s, LevelOf(s))
  }

  /** calculateSizhuShengwang: all four stems are measured against the month
      branch, each stage paired with its level. */
  function SizhuStates(table: Table, yearTian: string, monthTian: string, dayTian: string, hourTian: string, monthDi: string): (r: SizhuShengwang)
    ensures r.year == Measure(table, yearTian, monthDi) && r.month == Measure(table, monthTian, monthDi)
    ensures r.day == Measure(table, dayTian, monthDi) && r.hour == Measure(table, hourTian, monthDi)
  {
    SizhuShengwang(Measure(table, yearTian, monthDi), Measure(table, monthTian, monthDi),
                   Measure(table, dayTian, monthDi), Measure(table, hourTian, monthDi))
  }

  /** With an unrecognised month branch every pillar is 未知 and weak; with a
      recognised one and a shaped table every recognised stem gets a named
      stage. */
  lemma SizhuStatesMonthBranch(table: Table, yearTian: string, monthTian: string, dayTian: string, hourTian: string, monthDi: string)
    ensures !IsBranch(monthDi) ==>
      var r := SizhuStates(table, yearTian, monthTian, dayTian, hourTian, monthDi);
      r.year == r.month == r.day == r.hour == StateLevel(Unknown, Weak)
    ensures Shaped(table) && IsBranch(monthDi) && IsStem(yearTian) ==>
      SizhuStates(table, yearTian, monthTian, dayTian, hourTian, monthDi).year.state in States
  {
    if Shaped(table) && IsBranch(monthDi) && IsStem(yearTian) {
      var i, j := StemIndex(yearTian), BranchIndex(monthDi);
      StateInKnown(table, i, j);
    }
  }
}
