/** The names under which a drain prints its numbers: a scan for a quoted key finds each
    number of the page under its own name. */
module DrainKeys {
  import opened Text
  import opened UsageParse
  import opened UsageBody
  import opened DrainText

  lemma {:induction false} JoinSplit(s: string, sep: char)
    ensures Split(s, sep) != [] && Join(Split(s, sep), sep) == s
    ensures forall i | 0 <= i < |Split(s, sep)| :: sep !in Split(s, sep)[i]
    decreases |s|
  {
    var d := Find(s, sep);
    if d < |s| {
      JoinSplit(s[d + 1..], sep);
      JoinCons(s[..d], Split(s[d + 1..], sep), sep);
      CutAt(s, d);
    }
  }

  lemma CutAt(s: string, d: nat)
    requires d < |s|
    ensures s[..d] + [s[d]] + s[d + 1..] == s
  {
  }

  lemma JoinCons(x: string, rest: seq<string>, sep: char)
    requires rest != []
    ensures Join([x] + rest, sep) == x + [sep] + Join(rest, sep)
  {
    assert ([x] + rest)[1..] == rest;
  }

  /** A key and its figure in front of more. */
  lemma AddFigure(name: string, n: nat, fs: seq<string>, text: string)
    requires fs != [] && Join(fs, '"') == text
    ensures Join([name, Figure(n, ",")] + fs, '"') == name + ("\":" + (Dec(n) + (",\"" + text)))
  {
    JoinCons(Figure(n, ","), fs, '"');
    JoinCons(name, [Figure(n, ",")] + fs, '"');
    assert [name, Figure(n, ",")] + fs == [name] + ([Figure(n, ",")] + fs);
    Associates(name, Dec(n), text);
  }

  lemma Associates(name: string, digits: string, text: string)
    ensures name + ['"'] + (":" + digits + "," + ['"'] + text) == name + ("\":" + (digits + (",\"" + text)))
  {
  }

  /** The page cut at its quotes, from its records on, its figures, and its id. */
  function RecordsCut(p: Page): seq<string> { ["records"] + Split(":[" + Entries(p.records, "]}"), '"') }

  function FiguresCut(p: Page): seq<string> {
    ["head", Figure(p.head, ",")] + (["next", Figure(p.next, ",")] + (["lost", Figure(p.lost, ",")] + RecordsCut(p)))
  }

  function PageCut(p: Page): seq<string> { ["{", "inst", ":", p.inst, ","] + FiguresCut(p) }

  function FiguresText(p: Page): string {
    "head\":" + (Dec(p.head) + (",\"next\":" + (Dec(p.next) + (",\"lost\":" + (Dec(p.lost)
      + (",\"records\":[" + Entries(p.records, "]}")))))))
  }

  lemma RecordsJoin(p: Page)
    ensures Join(RecordsCut(p), '"') == "records\"" + (":[" + Entries(p.records, "]}"))
  {
    var rest := ":[" + Entries(p.records, "]}");
    JoinSplit(rest, '"');
    JoinCons("records", Split(rest, '"'), '"');
  }

  lemma FiguresJoin(p: Page)
    ensures Join(FiguresCut(p), '"') == FiguresText(p)
  {
    var records := ",\"records\":[" + Entries(p.records, "]}");
    RecordsJoin(p);
    KeysGlue(Entries(p.records, "]}"));
    AddFigure("lost", p.lost, RecordsCut(p), "records\"" + (":[" + Entries(p.records, "]}")));
    var fs := ["lost", Figure(p.lost, ",")] + RecordsCut(p);
    NextJoin(p.next, Dec(p.lost) + records, fs);
    HeadJoin(p.head, Dec(p.next) + (",\"lost\":" + (Dec(p.lost) + records)), ["next", Figure(p.next, ",")] + fs);
  }

  lemma NextJoin(n: nat, x: string, fs: seq<string>)
    requires fs != [] && Join(fs, '"') == "lost\":" + x
    ensures Join(["next", Figure(n, ",")] + fs, '"') == "next\":" + (Dec(n) + (",\"lost\":" + x))
  {
    KeysGlue(x);
    AddFigure("next", n, fs, "lost\":" + x);
  }

  lemma HeadJoin(n: nat, x: string, fs: seq<string>)
    requires fs != [] && Join(fs, '"') == "next\":" + x
    ensures Join(["head", Figure(n, ",")] + fs, '"') == "head\":" + (Dec(n) + (",\"next\":" + x))
  {
    KeysGlue(x);
    AddFigure("head", n, fs, "next\":" + x);
  }

  lemma KeysGlue(x: string)
    ensures ",\"" + ("records\"" + (":[" + x)) == ",\"records\":[" + x
    ensures ",\"" + ("lost\":" + x) == ",\"lost\":" + x
    ensures ",\"" + ("next\":" + x) == ",\"next\":" + x
    ensures "\",\"" + ("head\":" + x) == "\",\"head\":" + x
  {
  }

  lemma PageJoin(p: Page)
    ensures Join(PageCut(p), '"') == PageText(p)
  {
    FiguresJoin(p);
    FrontJoin(p.inst, FiguresCut(p), FiguresText(p));
    KeysGlue(Dec(p.head) + (",\"next\":" + (Dec(p.next) + (",\"lost\":" + (Dec(p.lost)
               + (",\"records\":[" + Entries(p.records, "]}")))))));
  }

  lemma FrontJoin(inst: string, fs: seq<string>, text: string)
    requires fs != [] && Join(fs, '"') == text
    ensures Join(["{", "inst", ":", inst, ","] + fs, '"') == "{\"inst\":\"" + (inst + ("\",\"" + text))
  {
    var tail := [":", inst, ","] + fs;
    IdJoin(inst, fs, text);
    JoinCons("inst", tail, '"');
    JoinCons("{", ["inst"] + tail, '"');
    assert ["{", "inst", ":", inst, ","] + fs == ["{"] + (["inst"] + tail);
  }

  lemma IdJoin(inst: string, fs: seq<string>, text: string)
    requires fs != [] && Join(fs, '"') == text
    ensures Join([":", inst, ","] + fs, '"') == ":\"" + (inst + ("\",\"" + text))
  {
    JoinCons(",", fs, '"');
    JoinCons(inst, [","] + fs, '"');
    JoinCons(":", [inst] + ([","] + fs), '"');
    assert [":", inst, ","] + fs == [":"] + ([inst] + ([","] + fs));
  }

  function FiguresOf(p: Page): Figures { [("head", p.head), ("next", p.next), ("lost", p.lost)] }

  lemma CutFramed(p: Page)
    ensures IsFramed(PageCut(p), ["{", "inst", ":", p.inst, ","], FiguresOf(p), ",", RecordsCut(p))
  {
    var fs, figs := PageCut(p), FiguresOf(p);
    assert fs[5] == "head" && fs[6] == Figure(p.head, ",") && fs[7] == "next" && fs[8] == Figure(p.next, ",");
    assert fs[9] == "lost" && fs[10] == Figure(p.lost, ",");
    forall i | 0 <= i < 3 ensures IsPair(fs, 5 + 2 * i, figs[i], TailAt(figs, i, ",")) {
      assert i == 0 || i == 1 || i == 2;
    }
  }

  lemma FiguresKeyed(p: Page)
    ensures Keyed(FiguresOf(p))
  {
    assert "head"[0] != "next"[0] && "head"[0] != "lost"[0] && "next"[0] != "lost"[0];
    assert "head"[0] != "model"[0] && "next"[0] != "model"[0] && "lost"[0] != "model"[0];
    assert "head"[0] != "usage"[0] && "next"[0] != "usage"[0] && "lost"[0] != "usage"[0];
  }

  lemma FrontClean(p: Page, i: nat)
    requires Plain(p.inst) && i < 3 && p.inst != FiguresOf(p)[i].0
    ensures
      var front := ["{", "inst", ":", p.inst, ","];
      Clean(front) && Lacks(front, 1, FiguresOf(p)[i].0)
  {
    assert "inst"[0] != "head"[0] && "inst"[0] != "next"[0] && "inst"[0] != "lost"[0];
    assert |":"| == |","| == 1 && |"head"| == |"next"| == |"lost"| == 4;
  }

  lemma RecordsClean(p: Page)
    ensures Clean(RecordsCut(p))
  {
    JoinSplit(":[" + Entries(p.records, "]}"), '"');
  }

  lemma FigureFound(p: Page, i: nat)
    requires PlainPage(p) && i < 3 && p.inst != FiguresOf(p)[i].0
    ensures NumAfter(PageText(p), InQuotes(FiguresOf(p)[i].0)) == FiguresOf(p)[i].1
  {
    PageJoin(p);
    CutFramed(p);
    FiguresKeyed(p);
    FrontClean(p, i);
    RecordsClean(p);
    StatedReads(PageCut(p), ["{", "inst", ":", p.inst, ","], FiguresOf(p), ",", RecordsCut(p), i);
  }

  lemma KeyFound(p: Page, i: nat, name: string, n: nat, key: string)
    requires PlainPage(p) && i < 3 && p.inst != name && FiguresOf(p)[i] == (name, n) && key == InQuotes(name)
    ensures NumAfter(PageText(p), key) == n
  {
    FigureFound(p, i);
  }

  lemma Spelling()
    ensures "\"head\"" == InQuotes("head") && "\"next\"" == InQuotes("next") && "\"lost\"" == InQuotes("lost")
  {
  }

  /** Whatever the records hold, the head, the next cursor and the loss of a page are
      printed under "head", "next" and "lost", for any id that is none of these words. */
  lemma NumbersUnderKeys(p: Page)
    requires PlainPage(p) && p.inst != "head" && p.inst != "next" && p.inst != "lost"
    ensures NumAfter(PageText(p), "\"head\"") == p.head
    ensures NumAfter(PageText(p), "\"next\"") == p.next
    ensures NumAfter(PageText(p), "\"lost\"") == p.lost
  {
    Spelling();
    KeyFound(p, 0, "head", p.head, "\"head\"");
    KeyFound(p, 1, "next", p.next, "\"next\"");
    KeyFound(p, 2, "lost", p.lost, "\"lost\"");
  }
}
