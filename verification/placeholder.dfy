/** The worked example of app.py lines 305-306: the placeholder requirement
    text of the input box, classified phrase by phrase. A phrase without spaces
    occurs in the space-joined words exactly when it occurs in one word, and a
    word cannot hold a phrase longer than itself or one with a letter it lacks. */
module Placeholder {
  import opened Seqs
  import opened Strings
  import opened Catalog
  import opened Classifier
  import opened Scenarios

  /** The placeholder text split at its single spaces. */
  const Words: seq<string> := [
    "e.g.,", "We", "process", "5k", "orders/day,", "need",
    "EWM", "for", "DC,", "Ariba", "sourcing,", "integrate",
    "with", "3PL", "and", "payment", "gateway,", "IBP",
    "for", "planning,", "and", "monthly", "financial", "close",
    "in", "2", "days..."
  ]

  /** The placeholder text. */
  const Text: string := Join(Words, ' ')

  /** The words lower-cased. */
  const Lowered: seq<string> := [
    "e.g.,", "we", "process", "5k", "orders/day,", "need",
    "ewm", "for", "dc,", "ariba", "sourcing,", "integrate",
    "with", "3pl", "and", "payment", "gateway,", "ibp",
    "for", "planning,", "and", "monthly", "financial", "close",
    "in", "2", "days..."
  ]

  /** The text the classifier scans. */
  const Scanned: string := Join(Lowered, ' ')

  /** The letters of each lowered word. */
  const Letters: seq<set<char>> := [
    {',', '.', 'e', 'g'}, {'e', 'w'}, {'c', 'e', 'o', 'p', 'r', 's'},
    {'5', 'k'}, {',', '/', 'a', 'd', 'e', 'o', 'r', 's', 'y'}, {'d', 'e', 'n'},
    {'e', 'm', 'w'}, {'f', 'o', 'r'}, {',', 'c', 'd'},
    {'a', 'b', 'i', 'r'}, {',', 'c', 'g', 'i', 'n', 'o', 'r', 's', 'u'}, {'a', 'e', 'g', 'i', 'n', 'r', 't'},
    {'h', 'i', 't', 'w'}, {'3', 'l', 'p'}, {'a', 'd', 'n'},
    {'a', 'e', 'm', 'n', 'p', 't', 'y'}, {',', 'a', 'e', 'g', 't', 'w', 'y'}, {'b', 'i', 'p'},
    {'f', 'o', 'r'}, {',', 'a', 'g', 'i', 'l', 'n', 'p'}, {'a', 'd', 'n'},
    {'h', 'l', 'm', 'n', 'o', 't', 'y'}, {'a', 'c', 'f', 'i', 'l', 'n'}, {'c', 'e', 'l', 'o', 's'},
    {'i', 'n'}, {'2'}, {'.', 'a', 'd', 's', 'y'}
  ]

  /** The indices of the lowered words holding `c`. */
  function HoldersOf(c: char): set<nat> {
    match c
    case ',' => {0, 4, 8, 10, 16, 19}
    case '.' => {0, 26}
    case '/' => {4}
    case '2' => {25}
    case '3' => {13}
    case '5' => {3}
    case 'a' => {4, 9, 11, 14, 15, 16, 19, 20, 22, 26}
    case 'b' => {9, 17}
    case 'c' => {2, 8, 10, 22, 23}
    case 'd' => {4, 5, 8, 14, 20, 26}
    case 'e' => {0, 1, 2, 4, 5, 6, 11, 15, 16, 23}
    case 'f' => {7, 18, 22}
    case 'g' => {0, 10, 11, 16, 19}
    case 'h' => {12, 21}
    case 'i' => {9, 10, 11, 12, 17, 19, 22, 24}
    case 'k' => {3}
    case 'l' => {13, 19, 21, 22, 23}
    case 'm' => {6, 15, 21}
    case 'n' => {5, 10, 11, 14, 15, 19, 20, 21, 22, 24}
    case 'o' => {2, 4, 7, 10, 18, 21, 23}
    case 'p' => {2, 13, 15, 17, 19}
    case 'r' => {2, 4, 7, 9, 10, 11, 18}
    case 's' => {2, 4, 10, 23, 26}
    case 't' => {11, 12, 15, 16, 21}
    case 'u' => {10}
    case 'w' => {1, 6, 12, 16}
    case 'y' => {4, 15, 16, 21, 26}
    case _ => {}
  }

  // ---------------------------------------------------------------------------
  // The lowered words and their letters
  // ---------------------------------------------------------------------------

  lemma LoweredPrefix()
    ensures forall i :: 0 <= i < 9 ==> Lower(Words[i]) == Lowered[i]
  {
  }

  lemma LoweredMiddle()
    ensures forall i :: 9 <= i < 18 ==> Lower(Words[i]) == Lowered[i]
  {
  }

  lemma LoweredSuffix()
    ensures forall i :: 18 <= i < |Words| ==> Lower(Words[i]) == Lowered[i]
  {
  }

  /** The classifier scans the lowered words joined by spaces. */
  lemma LowerText()
    ensures Lower(Text) == Scanned
  {
    LowerJoin(Words, ' ');
    LoweredPrefix();
    LoweredMiddle();
    LoweredSuffix();
    assert seq(|Words|, i requires 0 <= i < |Words| => Lower(Words[i])) == Lowered;
  }

  lemma LettersPrefix()
    ensures forall i, c :: 0 <= i < 9 ==> (c in Lowered[i] <==> c in Letters[i])
  {
  }

  lemma LettersMiddle()
    ensures forall i, c :: 9 <= i < 18 ==> (c in Lowered[i] <==> c in Letters[i])
  {
  }

  lemma LettersSuffix()
    ensures forall i, c :: 18 <= i < |Lowered| ==> (c in Lowered[i] <==> c in Letters[i])
  {
  }

  lemma AllLetters()
    ensures |Letters| == |Lowered|
    ensures forall i, c :: 0 <= i < |Lowered| ==> (c in Lowered[i] <==> c in Letters[i])
  {
    LettersPrefix();
    LettersMiddle();
    LettersSuffix();
  }

  lemma HoldersPrefix()
    ensures forall i, c :: 0 <= i < 9 && c in Letters[i] ==> i in HoldersOf(c)
  {
  }

  lemma HoldersMiddle()
    ensures forall i, c :: 9 <= i < 18 && c in Letters[i] ==> i in HoldersOf(c)
  {
  }

  lemma HoldersSuffix()
    ensures forall i, c :: 18 <= i < |Letters| && c in Letters[i] ==> i in HoldersOf(c)
  {
  }

  lemma HoldersOfLetter(a: char)
    ensures forall i :: 0 <= i < |Letters| && a in Letters[i] ==> i in HoldersOf(a)
  {
    HoldersPrefix();
    HoldersMiddle();
    HoldersSuffix();
  }

  // ---------------------------------------------------------------------------
  // Ways to settle a phrase
  // ---------------------------------------------------------------------------

  /** A space-free phrase with letter `a`, where every word holding `a` is too
      short for the phrase or lacks its letter `b` or `c`, does not occur in the
      scanned text. */
  lemma AbsentByRareLetter(p: string, a: char, b: char, c: char, holders: set<nat>)
    requires p != "" && ' ' !in p && a in p && b in p && c in p
    requires forall i :: 0 <= i < |Letters| && a in Letters[i] ==> i in holders
    requires forall i :: i in holders && i < |Lowered| ==> |Lowered[i]| < |p| || b !in Letters[i] || c !in Letters[i]
    ensures !Occurs(Scanned, p)
  {
    AllLetters();
    OccursInJoin(Lowered, ' ', p);
    forall i | 0 <= i < |Lowered| ensures !Occurs(Lowered[i], p) {
      var w := Lowered[i];
      if |w| < |p| {
        TooLongToOccur(w, p);
      } else if a !in w {
        var k :| 0 <= k < |p| && p[k] == a;
        MissingChar(w, p, k);
      } else if b !in w {
        var k :| 0 <= k < |p| && p[k] == b;
        MissingChar(w, p, k);
      } else if c !in w {
        var k :| 0 <= k < |p| && p[k] == c;
        MissingChar(w, p, k);
      }
    }
  }

  /** As above, except for the words of `checked`, which do not hold the
      phrase. */
  lemma AbsentByRareLetterBut(p: string, a: char, b: char, c: char, holders: set<nat>, checked: set<nat>)
    requires p != "" && ' ' !in p && a in p && b in p && c in p
    requires forall i :: 0 <= i < |Letters| && a in Letters[i] ==> i in holders
    requires forall i :: i in holders && i < |Lowered| && i !in checked ==> |Lowered[i]| < |p| || b !in Letters[i] || c !in Letters[i]
    requires forall i :: i in checked && i < |Lowered| ==> !Occurs(Lowered[i], p)
    ensures !Occurs(Scanned, p)
  {
    AllLetters();
    OccursInJoin(Lowered, ' ', p);
    forall i | 0 <= i < |Lowered| && i !in checked ensures !Occurs(Lowered[i], p) {
      var w := Lowered[i];
      if |w| < |p| {
        TooLongToOccur(w, p);
      } else if a !in w {
        var k :| 0 <= k < |p| && p[k] == a;
        MissingChar(w, p, k);
      } else if b !in w {
        var k :| 0 <= k < |p| && p[k] == b;
        MissingChar(w, p, k);
      } else {
        var k :| 0 <= k < |p| && p[k] == c;
        MissingChar(w, p, k);
      }
    }
  }

  /** A phrase holding an absent part is absent too. */
  lemma AbsentViaPart(s: string, p: string, part: string, at: nat)
    requires at + |part| <= |p| && p[at..at + |part|] == part
    requires !Occurs(s, part)
    ensures !Occurs(s, p)
  {
    assert OccursAt(p, part, at);
    if Occurs(s, p) {
      OccursTransitive(s, p, part);
    }
  }

  /** A space-free phrase inside one of the words occurs in the scanned text. */
  lemma Present(p: string, i: nat, at: nat)
    requires p != "" && ' ' !in p
    requires i < |Lowered| && at + |p| <= |Lowered[i]| && Lowered[i][at..at + |p|] == p
    ensures Occurs(Scanned, p)
  {
    assert OccursAt(Lowered[i], p, at);
    OccursInJoin(Lowered, ' ', p);
  }


  // ---------------------------------------------------------------------------
  // The trigger phrases that settle the example
  // ---------------------------------------------------------------------------

  lemma Word4LacksYard()
    ensures !Occurs(Lowered[4], "yard")
  {
    FirstCharTooLate(Lowered[4], "yard");
  }

  lemma Word9LacksBi()
    ensures !Occurs(Lowered[9], "bi")
  {
    assert !Contains("ariba", "bi");
  }

  lemma Word17LacksBi()
    ensures !Occurs(Lowered[17], "bi")
  {
    assert !Contains("ibp", "bi");
  }

  lemma Word19LacksApi()
    ensures !Occurs(Lowered[19], "api")
  {
    assert !Contains("planning,", "api");
  }

  lemma Word21LacksMl()
    ensures !Occurs(Lowered[21], "ml")
  {
    assert !Contains("monthly", "ml");
  }

  lemma NoInvoice()
    ensures !Occurs(Scanned, "invoice")
  {
    HoldersOfLetter('v');
    AbsentByRareLetter("invoice", 'v', 'v', 'v', HoldersOf('v'));
  }

  lemma NoLedger()
    ensures !Occurs(Scanned, "ledger")
  {
    HoldersOfLetter('l');
    AbsentByRareLetter("ledger", 'l', 'd', 'l', HoldersOf('l'));
  }

  lemma NoAccount()
    ensures !Occurs(Scanned, "account")
  {
    HoldersOfLetter('u');
    AbsentByRareLetter("account", 'u', 'a', 'u', HoldersOf('u'));
  }

  lemma NoFinance()
    ensures !Occurs(Scanned, "finance")
  {
    HoldersOfLetter('f');
    AbsentByRareLetter("finance", 'f', 'e', 'f', HoldersOf('f'));
  }

  lemma NoPayable()
    ensures !Occurs(Scanned, "payable")
  {
    HoldersOfLetter('b');
    AbsentByRareLetter("payable", 'b', 'b', 'b', HoldersOf('b'));
  }

  lemma NoReceivable()
    ensures !Occurs(Scanned, "receivable")
  {
    HoldersOfLetter('v');
    AbsentByRareLetter("receivable", 'v', 'v', 'v', HoldersOf('v'));
  }

  lemma NoTax()
    ensures !Occurs(Scanned, "tax")
  {
    HoldersOfLetter('x');
    AbsentByRareLetter("tax", 'x', 'x', 'x', HoldersOf('x'));
  }

  lemma NoClosing()
    ensures !Occurs(Scanned, "closing")
  {
    HoldersOfLetter('c');
    AbsentByRareLetter("closing", 'c', 'g', 'l', HoldersOf('c'));
  }

  lemma NoCost()
    ensures !Occurs(Scanned, "cost")
  {
    HoldersOfLetter('c');
    AbsentByRareLetter("cost", 'c', 't', 'c', HoldersOf('c'));
  }

  lemma NoControlling()
    ensures !Occurs(Scanned, "controlling")
  {
    HoldersOfLetter('c');
    AbsentByRareLetter("controlling", 'c', 'c', 'c', HoldersOf('c'));
  }

  lemma NoProfit()
    ensures !Occurs(Scanned, "profit")
  {
    HoldersOfLetter('f');
    AbsentByRareLetter("profit", 'f', 'o', 'f', HoldersOf('f'));
  }

  lemma NoOverhead()
    ensures !Occurs(Scanned, "overhead")
  {
    HoldersOfLetter('v');
    AbsentByRareLetter("overhead", 'v', 'v', 'v', HoldersOf('v'));
  }

  lemma NoAllocation()
    ensures !Occurs(Scanned, "allocation")
  {
    HoldersOfLetter('c');
    AbsentByRareLetter("allocation", 'c', 'c', 'c', HoldersOf('c'));
  }

  lemma NoProcure()
    ensures !Occurs(Scanned, "procure")
  {
    HoldersOfLetter('u');
    AbsentByRareLetter("procure", 'u', 'e', 'u', HoldersOf('u'));
  }

  lemma NoPurchase()
    ensures !Occurs(Scanned, "purchase")
  {
    HoldersOfLetter('u');
    AbsentByRareLetter("purchase", 'u', 'a', 'u', HoldersOf('u'));
  }

  lemma NoMaterial()
    ensures !Occurs(Scanned, "material")
  {
    HoldersOfLetter('m');
    AbsentByRareLetter("material", 'm', 'm', 'm', HoldersOf('m'));
  }

  lemma NoSupplier()
    ensures !Occurs(Scanned, "supplier")
  {
    HoldersOfLetter('u');
    AbsentByRareLetter("supplier", 'u', 'e', 'u', HoldersOf('u'));
  }

  lemma NoInventory()
    ensures !Occurs(Scanned, "inventory")
  {
    HoldersOfLetter('v');
    AbsentByRareLetter("inventory", 'v', 'v', 'v', HoldersOf('v'));
  }

  lemma NoMrp()
    ensures !Occurs(Scanned, "mrp")
  {
    HoldersOfLetter('m');
    AbsentByRareLetter("mrp", 'm', 'r', 'm', HoldersOf('m'));
  }

  lemma HasOrder()
    ensures Occurs(Scanned, "order")
  {
    Present("order", 4, 0);
  }

  lemma NoProduction()
    ensures !Occurs(Scanned, "production")
  {
    HoldersOfLetter('u');
    AbsentByRareLetter("production", 'u', 'u', 'u', HoldersOf('u'));
  }

  lemma NoBom()
    ensures !Occurs(Scanned, "bom")
  {
    HoldersOfLetter('b');
    AbsentByRareLetter("bom", 'b', 'm', 'b', HoldersOf('b'));
  }

  lemma NoRouting()
    ensures !Occurs(Scanned, "routing")
  {
    HoldersOfLetter('u');
    AbsentByRareLetter("routing", 'u', 't', 'u', HoldersOf('u'));
  }

  lemma NoShopfloor()
    ensures !Occurs(Scanned, "shopfloor")
  {
    HoldersOfLetter('h');
    AbsentByRareLetter("shopfloor", 'h', 'h', 'h', HoldersOf('h'));
  }

  lemma NoCapacity()
    ensures !Occurs(Scanned, "capacity")
  {
    HoldersOfLetter('p');
    AbsentByRareLetter("capacity", 'p', 'c', 'p', HoldersOf('p'));
  }

  lemma NoQuality()
    ensures !Occurs(Scanned, "quality")
  {
    HoldersOfLetter('q');
    AbsentByRareLetter("quality", 'q', 'q', 'q', HoldersOf('q'));
  }

  lemma NoInspection()
    ensures !Occurs(Scanned, "inspection")
  {
    HoldersOfLetter('c');
    AbsentByRareLetter("inspection", 'c', 'c', 'c', HoldersOf('c'));
  }

  lemma NoDefect()
    ensures !Occurs(Scanned, "defect")
  {
    HoldersOfLetter('f');
    AbsentByRareLetter("defect", 'f', 'd', 'f', HoldersOf('f'));
  }

  lemma NoCompliance()
    ensures !Occurs(Scanned, "compliance")
  {
    HoldersOfLetter('m');
    AbsentByRareLetter("compliance", 'm', 'm', 'm', HoldersOf('m'));
  }

  lemma NoMaintenance()
    ensures !Occurs(Scanned, "maintenance")
  {
    HoldersOfLetter('m');
    AbsentByRareLetter("maintenance", 'm', 'm', 'm', HoldersOf('m'));
  }

  lemma NoAsset()
    ensures !Occurs(Scanned, "asset")
  {
    HoldersOfLetter('t');
    AbsentByRareLetter("asset", 't', 's', 't', HoldersOf('t'));
  }

  lemma NoBreakdown()
    ensures !Occurs(Scanned, "breakdown")
  {
    HoldersOfLetter('k');
    AbsentByRareLetter("breakdown", 'k', 'k', 'k', HoldersOf('k'));
  }

  lemma NoWork()
    ensures !Occurs(Scanned, "work")
  {
    HoldersOfLetter('k');
    AbsentByRareLetter("work", 'k', 'k', 'k', HoldersOf('k'));
  }

  lemma NoWorkOrder()
    ensures !Occurs(Scanned, "work order")
  {
    NoWork();
    AbsentViaPart(Scanned, "work order", "work", 0);
  }

  lemma NoWarehouse()
    ensures !Occurs(Scanned, "warehouse")
  {
    HoldersOfLetter('u');
    AbsentByRareLetter("warehouse", 'u', 'a', 'u', HoldersOf('u'));
  }

  lemma NoPutaway()
    ensures !Occurs(Scanned, "putaway")
  {
    HoldersOfLetter('u');
    AbsentByRareLetter("putaway", 'u', 'a', 'u', HoldersOf('u'));
  }

  lemma NoPicking()
    ensures !Occurs(Scanned, "picking")
  {
    HoldersOfLetter('k');
    AbsentByRareLetter("picking", 'k', 'k', 'k', HoldersOf('k'));
  }

  lemma NoYard()
    ensures !Occurs(Scanned, "yard")
  {
    Word4LacksYard();
    HoldersOfLetter('d');
    AbsentByRareLetterBut("yard", 'd', 'a', 'r', HoldersOf('d'), {4});
  }

  lemma NoSlotting()
    ensures !Occurs(Scanned, "slotting")
  {
    HoldersOfLetter('l');
    AbsentByRareLetter("slotting", 'l', 'o', 'l', HoldersOf('l'));
  }

  lemma NoTransport()
    ensures !Occurs(Scanned, "transport")
  {
    HoldersOfLetter('p');
    AbsentByRareLetter("transport", 'p', 'o', 'p', HoldersOf('p'));
  }

  lemma NoFreight()
    ensures !Occurs(Scanned, "freight")
  {
    HoldersOfLetter('h');
    AbsentByRareLetter("freight", 'h', 'e', 'h', HoldersOf('h'));
  }

  lemma NoCarrier()
    ensures !Occurs(Scanned, "carrier")
  {
    HoldersOfLetter('c');
    AbsentByRareLetter("carrier", 'c', 'a', 'e', HoldersOf('c'));
  }

  lemma NoRoute()
    ensures !Occurs(Scanned, "route")
  {
    HoldersOfLetter('u');
    AbsentByRareLetter("route", 'u', 'e', 'u', HoldersOf('u'));
  }

  lemma NoShipment()
    ensures !Occurs(Scanned, "shipment")
  {
    HoldersOfLetter('h');
    AbsentByRareLetter("shipment", 'h', 'h', 'h', HoldersOf('h'));
  }

  lemma NoPayroll()
    ensures !Occurs(Scanned, "payroll")
  {
    HoldersOfLetter('l');
    AbsentByRareLetter("payroll", 'l', 'r', 'l', HoldersOf('l'));
  }

  lemma NoTime()
    ensures !Occurs(Scanned, "time")
  {
    HoldersOfLetter('m');
    AbsentByRareLetter("time", 'm', 'i', 'm', HoldersOf('m'));
  }

  lemma NoLeave()
    ensures !Occurs(Scanned, "leave")
  {
    HoldersOfLetter('v');
    AbsentByRareLetter("leave", 'v', 'v', 'v', HoldersOf('v'));
  }

  lemma NoHr()
    ensures !Occurs(Scanned, "hr")
  {
    HoldersOfLetter('h');
    AbsentByRareLetter("hr", 'h', 'r', 'h', HoldersOf('h'));
  }

  lemma NoAttendance()
    ensures !Occurs(Scanned, "attendance")
  {
    HoldersOfLetter('c');
    AbsentByRareLetter("attendance", 'c', 'c', 'c', HoldersOf('c'));
  }

  lemma NoSuccessfactors()
    ensures !Occurs(Scanned, "successfactors")
  {
    HoldersOfLetter('u');
    AbsentByRareLetter("successfactors", 'u', 'u', 'u', HoldersOf('u'));
  }

  lemma NoTalent()
    ensures !Occurs(Scanned, "talent")
  {
    HoldersOfLetter('l');
    AbsentByRareLetter("talent", 'l', 'e', 'l', HoldersOf('l'));
  }

  lemma NoRecruit()
    ensures !Occurs(Scanned, "recruit")
  {
    HoldersOfLetter('u');
    AbsentByRareLetter("recruit", 'u', 'e', 'u', HoldersOf('u'));
  }

  lemma NoPerformance()
    ensures !Occurs(Scanned, "performance")
  {
    HoldersOfLetter('f');
    AbsentByRareLetter("performance", 'f', 'f', 'f', HoldersOf('f'));
  }

  lemma NoLearning()
    ensures !Occurs(Scanned, "learning")
  {
    HoldersOfLetter('l');
    AbsentByRareLetter("learning", 'l', 'e', 'l', HoldersOf('l'));
  }

  lemma NoReport()
    ensures !Occurs(Scanned, "report")
  {
    HoldersOfLetter('p');
    AbsentByRareLetter("report", 'p', 'o', 't', HoldersOf('p'));
  }

  lemma NoBi()
    ensures !Occurs(Scanned, "bi")
  {
    Word9LacksBi();
    Word17LacksBi();
    HoldersOfLetter('b');
    AbsentByRareLetterBut("bi", 'b', 'b', 'b', HoldersOf('b'), {9, 17});
  }

  lemma NoAnalytics()
    ensures !Occurs(Scanned, "analytics")
  {
    HoldersOfLetter('t');
    AbsentByRareLetter("analytics", 't', 'c', 't', HoldersOf('t'));
  }

  lemma NoKpi()
    ensures !Occurs(Scanned, "kpi")
  {
    HoldersOfLetter('k');
    AbsentByRareLetter("kpi", 'k', 'k', 'k', HoldersOf('k'));
  }

  lemma NoMaster()
    ensures !Occurs(Scanned, "master")
  {
    HoldersOfLetter('m');
    AbsentByRareLetter("master", 'm', 'r', 'm', HoldersOf('m'));
  }

  lemma NoMasterData()
    ensures !Occurs(Scanned, "master data")
  {
    NoMaster();
    AbsentViaPart(Scanned, "master data", "master", 0);
  }

  lemma NoGovernance()
    ensures !Occurs(Scanned, "governance")
  {
    HoldersOfLetter('v');
    AbsentByRareLetter("governance", 'v', 'v', 'v', HoldersOf('v'));
  }

  lemma NoGolden()
    ensures !Occurs(Scanned, "golden")
  {
    HoldersOfLetter('l');
    AbsentByRareLetter("golden", 'l', 'd', 'l', HoldersOf('l'));
  }

  lemma NoGoldenRecord()
    ensures !Occurs(Scanned, "golden record")
  {
    NoGolden();
    AbsentViaPart(Scanned, "golden record", "golden", 0);
  }

  lemma NoMdm()
    ensures !Occurs(Scanned, "mdm")
  {
    HoldersOfLetter('m');
    AbsentByRareLetter("mdm", 'm', 'd', 'm', HoldersOf('m'));
  }

  lemma HasAriba()
    ensures Occurs(Scanned, "ariba")
  {
    Present("ariba", 9, 0);
  }

  lemma HasPlanning()
    ensures Occurs(Scanned, "planning")
  {
    Present("planning", 19, 0);
  }

  lemma NoCrm()
    ensures !Occurs(Scanned, "crm")
  {
    HoldersOfLetter('m');
    AbsentByRareLetter("crm", 'm', 'c', 'm', HoldersOf('m'));
  }

  lemma NoCustomer()
    ensures !Occurs(Scanned, "customer")
  {
    HoldersOfLetter('u');
    AbsentByRareLetter("customer", 'u', 'e', 'u', HoldersOf('u'));
  }

  lemma NoCustomerCare()
    ensures !Occurs(Scanned, "customer care")
  {
    NoCustomer();
    AbsentViaPart(Scanned, "customer care", "customer", 0);
  }

  lemma NoTicket()
    ensures !Occurs(Scanned, "ticket")
  {
    HoldersOfLetter('k');
    AbsentByRareLetter("ticket", 'k', 'k', 'k', HoldersOf('k'));
  }

  lemma NoService()
    ensures !Occurs(Scanned, "service")
  {
    HoldersOfLetter('v');
    AbsentByRareLetter("service", 'v', 'v', 'v', HoldersOf('v'));
  }

  lemma HasThreePl()
    ensures Occurs(Scanned, "3pl")
  {
    Present("3pl", 13, 0);
  }

  lemma HasPayment()
    ensures Occurs(Scanned, "payment")
  {
    Present("payment", 15, 0);
  }

  lemma NoData()
    ensures !Occurs(Scanned, "data")
  {
    HoldersOfLetter('t');
    AbsentByRareLetter("data", 't', 'd', 't', HoldersOf('t'));
  }

  lemma NoDataLake()
    ensures !Occurs(Scanned, "data lake")
  {
    NoData();
    AbsentViaPart(Scanned, "data lake", "data", 0);
  }

  lemma NoLakehouse()
    ensures !Occurs(Scanned, "lakehouse")
  {
    HoldersOfLetter('k');
    AbsentByRareLetter("lakehouse", 'k', 'k', 'k', HoldersOf('k'));
  }

  lemma NoDelta()
    ensures !Occurs(Scanned, "delta")
  {
    HoldersOfLetter('l');
    AbsentByRareLetter("delta", 'l', 'd', 'l', HoldersOf('l'));
  }

  lemma NoApi()
    ensures !Occurs(Scanned, "api")
  {
    Word19LacksApi();
    HoldersOfLetter('p');
    AbsentByRareLetterBut("api", 'p', 'a', 'i', HoldersOf('p'), {19});
  }

  lemma NoIntegration()
    ensures !Occurs(Scanned, "integration")
  {
    HoldersOfLetter('g');
    AbsentByRareLetter("integration", 'g', 'g', 'g', HoldersOf('g'));
  }

  lemma NoApim()
    ensures !Occurs(Scanned, "apim")
  {
    HoldersOfLetter('m');
    AbsentByRareLetter("apim", 'm', 'i', 'm', HoldersOf('m'));
  }

  lemma NoIot()
    ensures !Occurs(Scanned, "iot")
  {
    HoldersOfLetter('t');
    AbsentByRareLetter("iot", 't', 'i', 'o', HoldersOf('t'));
  }

  lemma NoSensor()
    ensures !Occurs(Scanned, "sensor")
  {
    HoldersOfLetter('s');
    AbsentByRareLetter("sensor", 's', 'e', 'n', HoldersOf('s'));
  }

  lemma NoMachine()
    ensures !Occurs(Scanned, "machine")
  {
    HoldersOfLetter('h');
    AbsentByRareLetter("machine", 'h', 'a', 'h', HoldersOf('h'));
  }

  lemma NoEdge()
    ensures !Occurs(Scanned, "edge")
  {
    HoldersOfLetter('g');
    AbsentByRareLetter("edge", 'g', 'd', 'g', HoldersOf('g'));
  }

  lemma NoPlc()
    ensures !Occurs(Scanned, "plc")
  {
    HoldersOfLetter('c');
    AbsentByRareLetter("plc", 'c', 'l', 'p', HoldersOf('c'));
  }

  lemma NoRaspberry()
    ensures !Occurs(Scanned, "raspberry")
  {
    HoldersOfLetter('b');
    AbsentByRareLetter("raspberry", 'b', 'b', 'b', HoldersOf('b'));
  }

  lemma NoPower()
    ensures !Occurs(Scanned, "power")
  {
    HoldersOfLetter('w');
    AbsentByRareLetter("power", 'w', 'o', 'w', HoldersOf('w'));
  }

  lemma NoPowerBi()
    ensures !Occurs(Scanned, "power bi")
  {
    NoPower();
    AbsentViaPart(Scanned, "power bi", "power", 0);
  }

  lemma NoTableau()
    ensures !Occurs(Scanned, "tableau")
  {
    HoldersOfLetter('u');
    AbsentByRareLetter("tableau", 'u', 'a', 'u', HoldersOf('u'));
  }

  lemma NoDash()
    ensures !Occurs(Scanned, "dash")
  {
    HoldersOfLetter('h');
    AbsentByRareLetter("dash", 'h', 'a', 'h', HoldersOf('h'));
  }

  lemma NoMl()
    ensures !Occurs(Scanned, "ml")
  {
    Word21LacksMl();
    HoldersOfLetter('m');
    AbsentByRareLetterBut("ml", 'm', 'l', 'l', HoldersOf('m'), {21});
  }

  lemma NoSalesforce()
    ensures !Occurs(Scanned, "salesforce")
  {
    HoldersOfLetter('f');
    AbsentByRareLetter("salesforce", 'f', 'f', 'f', HoldersOf('f'));
  }

  lemma NoZendesk()
    ensures !Occurs(Scanned, "zendesk")
  {
    HoldersOfLetter('z');
    AbsentByRareLetter("zendesk", 'z', 'z', 'z', HoldersOf('z'));
  }

  lemma NoFiori()
    ensures !Occurs(Scanned, "fiori")
  {
    HoldersOfLetter('f');
    AbsentByRareLetter("fiori", 'f', 'o', 'f', HoldersOf('f'));
  }

  lemma NoOnDashPrem()
    ensures !Occurs(Scanned, "on-prem")
  {
    HoldersOfLetter('-');
    AbsentByRareLetter("on-prem", '-', '-', '-', HoldersOf('-'));
  }

  lemma NoPrem()
    ensures !Occurs(Scanned, "prem")
  {
    HoldersOfLetter('m');
    AbsentByRareLetter("prem", 'm', 'r', 'm', HoldersOf('m'));
  }

  /** The phrase "on prem" needs its part "prem", in any text. */
  lemma NoOnPremIn(s: string)
    requires !Occurs(s, "prem")
    ensures !Occurs(s, "on prem")
  {
    AbsentViaPart(s, "on prem", "prem", 3);
  }

  lemma NoOnPrem()
    ensures !Occurs(Scanned, "on prem")
  {
    NoPrem();
    NoOnPremIn(Scanned);
  }

  lemma NoDatacenter()
    ensures !Occurs(Scanned, "datacenter")
  {
    HoldersOfLetter('c');
    AbsentByRareLetter("datacenter", 'c', 'c', 'c', HoldersOf('c'));
  }

  lemma NoHybrid()
    ensures !Occurs(Scanned, "hybrid")
  {
    HoldersOfLetter('b');
    AbsentByRareLetter("hybrid", 'b', 'b', 'b', HoldersOf('b'));
  }

  lemma No100()
    ensures !Occurs(Scanned, "100")
  {
    HoldersOfLetter('0');
    AbsentByRareLetter("100", '0', '0', '0', HoldersOf('0'));
  }

  lemma No500()
    ensures !Occurs(Scanned, "500")
  {
    HoldersOfLetter('0');
    AbsentByRareLetter("500", '0', '0', '0', HoldersOf('0'));
  }

  lemma No1000()
    ensures !Occurs(Scanned, "1000")
  {
    HoldersOfLetter('0');
    AbsentByRareLetter("1000", '0', '0', '0', HoldersOf('0'));
  }

  lemma No5000()
    ensures !Occurs(Scanned, "5000")
  {
    HoldersOfLetter('0');
    AbsentByRareLetter("5000", '0', '0', '0', HoldersOf('0'));
  }

  lemma No10000()
    ensures !Occurs(Scanned, "10000")
  {
    HoldersOfLetter('0');
    AbsentByRareLetter("10000", '0', '0', '0', HoldersOf('0'));
  }

  lemma No20000()
    ensures !Occurs(Scanned, "20000")
  {
    HoldersOfLetter('0');
    AbsentByRareLetter("20000", '0', '0', '0', HoldersOf('0'));
  }

  // ---------------------------------------------------------------------------
  // The modules and systems the example names
  // ---------------------------------------------------------------------------

  lemma FiSilentIn(t: string)
    requires !Occurs(t, "invoice")
    requires !Occurs(t, "ledger")
    requires !Occurs(t, "account")
    requires !Occurs(t, "finance")
    requires !Occurs(t, "payable")
    requires !Occurs(t, "receivable")
    requires !Occurs(t, "tax")
    requires !Occurs(t, "closing")
    ensures !ModuleTriggered("FI", t)
  {
    assert KeywordsOf("FI") == ["invoice", "ledger", "account", "finance", "payable", "receivable", "tax", "closing"];
  }

  lemma FiSilent()
    ensures !ModuleTriggered("FI", Scanned)
  {
    NoInvoice();
    NoLedger();
    NoAccount();
    NoFinance();
    NoPayable();
    NoReceivable();
    NoTax();
    NoClosing();
    FiSilentIn(Scanned);
  }

  lemma CoSilentIn(t: string)
    requires !Occurs(t, "cost")
    requires !Occurs(t, "controlling")
    requires !Occurs(t, "profit")
    requires !Occurs(t, "overhead")
    requires !Occurs(t, "allocation")
    ensures !ModuleTriggered("CO", t)
  {
    assert KeywordsOf("CO") == ["cost", "controlling", "profit", "overhead", "allocation"];
  }

  lemma CoSilent()
    ensures !ModuleTriggered("CO", Scanned)
  {
    NoCost();
    NoControlling();
    NoProfit();
    NoOverhead();
    NoAllocation();
    CoSilentIn(Scanned);
  }

  lemma MmSilentIn(t: string)
    requires !Occurs(t, "procure")
    requires !Occurs(t, "purchase")
    requires !Occurs(t, "material")
    requires !Occurs(t, "supplier")
    requires !Occurs(t, "inventory")
    requires !Occurs(t, "mrp")
    ensures !ModuleTriggered("MM", t)
  {
    assert KeywordsOf("MM") == ["procure", "purchase", "material", "supplier", "inventory", "mrp"];
  }

  lemma MmSilent()
    ensures !ModuleTriggered("MM", Scanned)
  {
    NoProcure();
    NoPurchase();
    NoMaterial();
    NoSupplier();
    NoInventory();
    NoMrp();
    MmSilentIn(Scanned);
  }

  lemma SdTriggeredIn(t: string)
    requires Occurs(t, "order")
    ensures ModuleTriggered("SD", t)
  {
    assert KeywordsOf("SD")[0] == "order";
  }

  lemma SdTriggered()
    ensures ModuleTriggered("SD", Scanned)
  {
    HasOrder();
    SdTriggeredIn(Scanned);
  }

  lemma PpSilentIn(t: string)
    requires !Occurs(t, "production")
    requires !Occurs(t, "bom")
    requires !Occurs(t, "routing")
    requires !Occurs(t, "shopfloor")
    requires !Occurs(t, "mrp")
    requires !Occurs(t, "capacity")
    ensures !ModuleTriggered("PP", t)
  {
    assert KeywordsOf("PP") == ["production", "bom", "routing", "shopfloor", "mrp", "capacity"];
  }

  lemma PpSilent()
    ensures !ModuleTriggered("PP", Scanned)
  {
    NoProduction();
    NoBom();
    NoRouting();
    NoShopfloor();
    NoMrp();
    NoCapacity();
    PpSilentIn(Scanned);
  }

  lemma QmSilentIn(t: string)
    requires !Occurs(t, "quality")
    requires !Occurs(t, "inspection")
    requires !Occurs(t, "defect")
    requires !Occurs(t, "compliance")
    ensures !ModuleTriggered("QM", t)
  {
    assert KeywordsOf("QM") == ["quality", "inspection", "defect", "compliance"];
  }

  lemma QmSilent()
    ensures !ModuleTriggered("QM", Scanned)
  {
    NoQuality();
    NoInspection();
    NoDefect();
    NoCompliance();
    QmSilentIn(Scanned);
  }

  lemma PmSilentIn(t: string)
    requires !Occurs(t, "maintenance")
    requires !Occurs(t, "asset")
    requires !Occurs(t, "breakdown")
    requires !Occurs(t, "work order")
    ensures !ModuleTriggered("PM", t)
  {
    assert KeywordsOf("PM") == ["maintenance", "asset", "breakdown", "work order"];
  }

  lemma PmSilent()
    ensures !ModuleTriggered("PM", Scanned)
  {
    NoMaintenance();
    NoAsset();
    NoBreakdown();
    NoWorkOrder();
    PmSilentIn(Scanned);
  }

  lemma EwmSilentIn(t: string)
    requires !Occurs(t, "warehouse")
    requires !Occurs(t, "putaway")
    requires !Occurs(t, "picking")
    requires !Occurs(t, "yard")
    requires !Occurs(t, "slotting")
    ensures !ModuleTriggered("EWM", t)
  {
    assert KeywordsOf("EWM") == ["warehouse", "putaway", "picking", "yard", "slotting"];
  }

  lemma EwmSilent()
    ensures !ModuleTriggered("EWM", Scanned)
  {
    NoWarehouse();
    NoPutaway();
    NoPicking();
    NoYard();
    NoSlotting();
    EwmSilentIn(Scanned);
  }

  lemma TmSilentIn(t: string)
    requires !Occurs(t, "transport")
    requires !Occurs(t, "freight")
    requires !Occurs(t, "carrier")
    requires !Occurs(t, "route")
    requires !Occurs(t, "shipment")
    ensures !ModuleTriggered("TM", t)
  {
    assert KeywordsOf("TM") == ["transport", "freight", "carrier", "route", "shipment"];
  }

  lemma TmSilent()
    ensures !ModuleTriggered("TM", Scanned)
  {
    NoTransport();
    NoFreight();
    NoCarrier();
    NoRoute();
    NoShipment();
    TmSilentIn(Scanned);
  }

  lemma HcmSilentIn(t: string)
    requires !Occurs(t, "payroll")
    requires !Occurs(t, "time")
    requires !Occurs(t, "leave")
    requires !Occurs(t, "hr")
    requires !Occurs(t, "attendance")
    ensures !ModuleTriggered("HCM", t)
  {
    assert KeywordsOf("HCM") == ["payroll", "time", "leave", "hr", "attendance"];
  }

  lemma HcmSilent()
    ensures !ModuleTriggered("HCM", Scanned)
  {
    NoPayroll();
    NoTime();
    NoLeave();
    NoHr();
    NoAttendance();
    HcmSilentIn(Scanned);
  }

  lemma SfSilentIn(t: string)
    requires !Occurs(t, "successfactors")
    requires !Occurs(t, "talent")
    requires !Occurs(t, "recruit")
    requires !Occurs(t, "performance")
    requires !Occurs(t, "learning")
    ensures !ModuleTriggered("SF", t)
  {
    assert KeywordsOf("SF") == ["successfactors", "talent", "recruit", "performance", "learning"];
  }

  lemma SfSilent()
    ensures !ModuleTriggered("SF", Scanned)
  {
    NoSuccessfactors();
    NoTalent();
    NoRecruit();
    NoPerformance();
    NoLearning();
    SfSilentIn(Scanned);
  }

  lemma Bw4HanaSilentIn(t: string)
    requires !Occurs(t, "report")
    requires !Occurs(t, "bi")
    requires !Occurs(t, "analytics")
    requires !Occurs(t, "warehouse")
    requires !Occurs(t, "kpi")
    ensures !ModuleTriggered("BW/4HANA", t)
  {
    assert KeywordsOf("BW/4HANA") == ["report", "bi", "analytics", "warehouse", "kpi"];
  }

  lemma Bw4HanaSilent()
    ensures !ModuleTriggered("BW/4HANA", Scanned)
  {
    NoReport();
    NoBi();
    NoAnalytics();
    NoWarehouse();
    NoKpi();
    Bw4HanaSilentIn(Scanned);
  }

  lemma MdgSilentIn(t: string)
    requires !Occurs(t, "master data")
    requires !Occurs(t, "governance")
    requires !Occurs(t, "golden record")
    requires !Occurs(t, "mdm")
    ensures !ModuleTriggered("MDG", t)
  {
    assert KeywordsOf("MDG") == ["master data", "governance", "golden record", "mdm"];
  }

  lemma MdgSilent()
    ensures !ModuleTriggered("MDG", Scanned)
  {
    NoMasterData();
    NoGovernance();
    NoGoldenRecord();
    NoMdm();
    MdgSilentIn(Scanned);
  }

  lemma AribaTriggeredIn(t: string)
    requires Occurs(t, "ariba")
    ensures ModuleTriggered("Ariba", t)
  {
    assert KeywordsOf("Ariba")[0] == "ariba";
  }

  lemma AribaTriggered()
    ensures ModuleTriggered("Ariba", Scanned)
  {
    HasAriba();
    AribaTriggeredIn(Scanned);
  }

  lemma IbpTriggeredIn(t: string)
    requires Occurs(t, "planning")
    ensures ModuleTriggered("IBP", t)
  {
    assert KeywordsOf("IBP")[0] == "planning";
  }

  lemma IbpTriggered()
    ensures ModuleTriggered("IBP", Scanned)
  {
    HasPlanning();
    IbpTriggeredIn(Scanned);
  }

  lemma CrmSilentIn(t: string)
    requires !Occurs(t, "crm")
    requires !Occurs(t, "customer care")
    requires !Occurs(t, "ticket")
    requires !Occurs(t, "service")
    ensures !ModuleTriggered("CRM", t)
  {
    assert KeywordsOf("CRM") == ["crm", "customer care", "ticket", "service"];
  }

  lemma CrmSilent()
    ensures !ModuleTriggered("CRM", Scanned)
  {
    NoCrm();
    NoCustomerCare();
    NoTicket();
    NoService();
    CrmSilentIn(Scanned);
  }

  lemma ThreePlWmsTriggeredIn(t: string)
    requires Occurs(t, "3pl")
    ensures SystemTriggered("3PL/WMS", t)
  {
    assert SystemKeywordsOf("3PL/WMS")[0] == "3pl";
  }

  lemma ThreePlWmsTriggered()
    ensures SystemTriggered("3PL/WMS", Scanned)
  {
    HasThreePl();
    ThreePlWmsTriggeredIn(Scanned);
  }

  lemma PaymentGatewayTriggeredIn(t: string)
    requires Occurs(t, "payment")
    ensures SystemTriggered("Payment Gateway", t)
  {
    assert SystemKeywordsOf("Payment Gateway")[0] == "payment";
  }

  lemma PaymentGatewayTriggered()
    ensures SystemTriggered("Payment Gateway", Scanned)
  {
    HasPayment();
    PaymentGatewayTriggeredIn(Scanned);
  }

  lemma DataLakeSilentIn(t: string)
    requires !Occurs(t, "data lake")
    requires !Occurs(t, "lakehouse")
    requires !Occurs(t, "delta")
    ensures !SystemTriggered("Data Lake", t)
  {
    assert SystemKeywordsOf("Data Lake") == ["data lake", "lakehouse", "delta"];
  }

  lemma DataLakeSilent()
    ensures !SystemTriggered("Data Lake", Scanned)
  {
    NoDataLake();
    NoLakehouse();
    NoDelta();
    DataLakeSilentIn(Scanned);
  }

  lemma ApiMgmtSilentIn(t: string)
    requires !Occurs(t, "api")
    requires !Occurs(t, "integration")
    requires !Occurs(t, "apim")
    ensures !SystemTriggered("API Mgmt", t)
  {
    assert SystemKeywordsOf("API Mgmt") == ["api", "integration", "apim"];
  }

  lemma ApiMgmtSilent()
    ensures !SystemTriggered("API Mgmt", Scanned)
  {
    NoApi();
    NoIntegration();
    NoApim();
    ApiMgmtSilentIn(Scanned);
  }

  lemma IotGatewaySilentIn(t: string)
    requires !Occurs(t, "iot")
    requires !Occurs(t, "sensor")
    requires !Occurs(t, "machine")
    requires !Occurs(t, "edge")
    ensures !SystemTriggered("IoT Gateway", t)
  {
    assert SystemKeywordsOf("IoT Gateway") == ["iot", "sensor", "machine", "edge"];
  }

  lemma IotGatewaySilent()
    ensures !SystemTriggered("IoT Gateway", Scanned)
  {
    NoIot();
    NoSensor();
    NoMachine();
    NoEdge();
    IotGatewaySilentIn(Scanned);
  }

  lemma EdgeDevicesSilentIn(t: string)
    requires !Occurs(t, "edge")
    requires !Occurs(t, "plc")
    requires !Occurs(t, "raspberry")
    ensures !SystemTriggered("Edge Devices", t)
  {
    assert SystemKeywordsOf("Edge Devices") == ["edge", "plc", "raspberry"];
  }

  lemma EdgeDevicesSilent()
    ensures !SystemTriggered("Edge Devices", Scanned)
  {
    NoEdge();
    NoPlc();
    NoRaspberry();
    EdgeDevicesSilentIn(Scanned);
  }

  lemma AnalyticsSystemSilentIn(t: string)
    requires !Occurs(t, "power bi")
    requires !Occurs(t, "tableau")
    requires !Occurs(t, "dash")
    requires !Occurs(t, "ml")
    ensures !SystemTriggered("Analytics", t)
  {
    assert SystemKeywordsOf("Analytics") == ["power bi", "tableau", "dash", "ml"];
  }

  lemma AnalyticsSystemSilent()
    ensures !SystemTriggered("Analytics", Scanned)
  {
    NoPowerBi();
    NoTableau();
    NoDash();
    NoMl();
    AnalyticsSystemSilentIn(Scanned);
  }

  lemma CrmNonSapSilentIn(t: string)
    requires !Occurs(t, "salesforce")
    requires !Occurs(t, "zendesk")
    ensures !SystemTriggered("CRM (Non-SAP)", t)
  {
    assert SystemKeywordsOf("CRM (Non-SAP)") == ["salesforce", "zendesk"];
  }

  lemma CrmNonSapSilent()
    ensures !SystemTriggered("CRM (Non-SAP)", Scanned)
  {
    NoSalesforce();
    NoZendesk();
    CrmNonSapSilentIn(Scanned);
  }

  // ---------------------------------------------------------------------------
  // The classification, for any text with the facts above
  // ---------------------------------------------------------------------------

  /** The modules with a trigger phrase in the placeholder text. */
  const Picked: seq<string> := ["SD", "Ariba", "IBP"]

  /** The non-SAP systems with a trigger phrase in the placeholder text. */
  const Linked: seq<string> := ["3PL/WMS", "Payment Gateway"]

  /** The core and UX modules have no trigger phrase. */
  lemma CoreAndUxSilent(t: string)
    ensures !ModuleTriggered(Core, t) && !ModuleTriggered(Ux, t)
  {
    CoreAndUx();
  }

  /** Catalogue positions 0 to 9 other than SD's are silent. */
  lemma FirstModulesSilentIn(t: string)
    requires !ModuleTriggered("FI", t)
    requires !ModuleTriggered("CO", t)
    requires !ModuleTriggered("MM", t)
    requires !ModuleTriggered("PP", t)
    requires !ModuleTriggered("QM", t)
    requires !ModuleTriggered("PM", t)
    requires !ModuleTriggered("EWM", t)
    requires !ModuleTriggered("TM", t)
    requires !ModuleTriggered("HCM", t)
    ensures forall i :: 0 <= i < 10 && i != 3 ==> !ModuleTriggered(SapModules[i], t)
  {
  }

  /** Catalogue positions 10 to 17 other than Ariba's and IBP's are silent. */
  lemma LastModulesSilentIn(t: string)
    requires !ModuleTriggered("SF", t)
    requires !ModuleTriggered("BW/4HANA", t)
    requires !ModuleTriggered("MDG", t)
    requires !ModuleTriggered("CRM", t)
    ensures forall i :: 10 <= i < |SapModules| && i != 13 && i != 14 ==> !ModuleTriggered(SapModules[i], t)
  {
    CoreAndUxSilent(t);
  }

  /** Only positions 3, 13 and 14 of the catalogue, SD, Ariba and IBP, can be
      triggered. */
  lemma OnlyPickedTriggered(t: string)
    requires forall i :: 0 <= i < |SapModules| && i != 3 && i != 13 && i != 14 ==> !ModuleTriggered(SapModules[i], t)
    ensures forall m :: m in SapModules && ModuleTriggered(m, t) ==> m in Picked
  {
    forall m | m in SapModules && ModuleTriggered(m, t) ensures m in Picked {
      var i :| 0 <= i < |SapModules| && SapModules[i] == m;
      assert SapModules[3] == "SD" && SapModules[13] == "Ariba" && SapModules[14] == "IBP";
    }
  }

  lemma PickedCatalogued()
    ensures "SD" in SapModules && "Ariba" in SapModules && "IBP" in SapModules
  {
    assert SapModules[3] == "SD" && SapModules[13] == "Ariba" && SapModules[14] == "IBP";
  }

  /** SD, Ariba and IBP are catalogued in this order. */
  lemma PickedInCatalogOrder()
    ensures InOrderOf(Picked, SapModules) && NoDup(Picked)
  {
    assert SapModules[3] == "SD" && SapModules[13] == "Ariba" && SapModules[14] == "IBP";
    CatalogsNoDup();
    PickedInOrder(SapModules, Picked, [3, 13, 14]);
  }

  /** With exactly the picked modules triggered, they are matched in catalogue
      order. */
  lemma PickedAreMatched(t: string)
    requires forall m :: m in SapModules && ModuleTriggered(m, t) ==> m in Picked
    requires ModuleTriggered("SD", t) && ModuleTriggered("Ariba", t) && ModuleTriggered("IBP", t)
    ensures forall y :: y in MatchedModules(t) <==> y in Picked
  {
    PickedCatalogued();
  }

  lemma MatchedIn(t: string)
    requires forall m :: m in SapModules && ModuleTriggered(m, t) ==> m in Picked
    requires ModuleTriggered("SD", t) && ModuleTriggered("Ariba", t) && ModuleTriggered("IBP", t)
    ensures MatchedModules(t) == Picked
  {
    PickedInCatalogOrder();
    MatchedInCatalogOrder(t);
    PickedAreMatched(t);
    InOrderUnique(SapModules, MatchedModules(t), Picked);
  }

  /** Something matched and "fiori" is not mentioned: core and UX follow. */
  lemma ForcedPairFollows(sel: seq<string>)
    requires NoDup(sel) && Core !in sel && Ux !in sel && sel != []
    ensures AddForcedModules(sel, false) == sel + [Core, Ux]
  {
  }

  lemma MatchedThenForcedPair(t: string)
    requires AnyModuleTriggered(t) && !Occurs(t, "fiori")
    ensures SelectModules(t) == MatchedModules(t) + [Core, Ux]
  {
    assert !Contains(t, "fiori");
    ForcedPairFollows(MatchedModules(t));
  }

  /** With exactly the picked modules triggered and no "fiori", the core and
      UX modules follow them. */
  lemma ModulesIn(t: string)
    requires forall m :: m in SapModules && ModuleTriggered(m, t) ==> m in Picked
    requires ModuleTriggered("SD", t) && ModuleTriggered("Ariba", t) && ModuleTriggered("IBP", t)
    requires !Occurs(t, "fiori")
    ensures SelectModules(t) == Picked + [Core, Ux]
  {
    MatchedIn(t);
    PickedCatalogued();
    MatchedThenForcedPair(t);
  }

  lemma SilentSystemsIn(t: string)
    requires !SystemTriggered("Data Lake", t)
    requires !SystemTriggered("API Mgmt", t)
    requires !SystemTriggered("IoT Gateway", t)
    requires !SystemTriggered("Edge Devices", t)
    requires !SystemTriggered("Analytics", t)
    requires !SystemTriggered("CRM (Non-SAP)", t)
    ensures forall x :: x in NonSapSystems && SystemTriggered(x, t) ==> x in Linked
  {
  }

  /** 3PL/WMS and the payment gateway head the system table. */
  lemma LinkedInTableOrder()
    ensures InOrderOf(Linked, NonSapSystems) && NoDup(Linked)
  {
    assert NonSapSystems[0] == "3PL/WMS" && NonSapSystems[1] == "Payment Gateway";
    CatalogsNoDup();
    PickedInOrder(NonSapSystems, Linked, [0, 1]);
  }

  /** With exactly the linked systems triggered, they are selected in table
      order. */
  lemma SystemsIn(t: string)
    requires forall x :: x in NonSapSystems && SystemTriggered(x, t) ==> x in Linked
    requires SystemTriggered("3PL/WMS", t) && SystemTriggered("Payment Gateway", t)
    ensures SelectExternal(t) == Linked
  {
    ExternalInTableOrder(t);
    LinkedInTableOrder();
    InOrderUnique(NonSapSystems, SelectExternal(t), Linked);
  }

  /** A text spelling none of the candidates keeps the default scale. */
  lemma ScaleIn(t: string)
    requires !Occurs(t, "100") && !Occurs(t, "500") && !Occurs(t, "1000")
    requires !Occurs(t, "5000") && !Occurs(t, "10000") && !Occurs(t, "20000")
    ensures ScaleHint(t) == DefaultScale
  {
    SpelledCandidates();
  }

  // ---------------------------------------------------------------------------
  // The classification of the placeholder text
  // ---------------------------------------------------------------------------

  lemma SilentModules()
    ensures forall m :: m in SapModules && ModuleTriggered(m, Scanned) ==> m in Picked
  {
    FiSilent();
    CoSilent();
    MmSilent();
    PpSilent();
    QmSilent();
    PmSilent();
    EwmSilent();
    TmSilent();
    HcmSilent();
    SfSilent();
    Bw4HanaSilent();
    MdgSilent();
    CrmSilent();
    FirstModulesSilentIn(Scanned);
    LastModulesSilentIn(Scanned);
    OnlyPickedTriggered(Scanned);
  }

  lemma ModulesAtPlaceholder()
    ensures SelectModules(Scanned) == Picked + [Core, Ux]
  {
    SilentModules();
    SdTriggered();
    AribaTriggered();
    IbpTriggered();
    NoFiori();
    ModulesIn(Scanned);
  }

  lemma SilentSystems()
    ensures forall x :: x in NonSapSystems && SystemTriggered(x, Scanned) ==> x in Linked
  {
    DataLakeSilent();
    ApiMgmtSilent();
    IotGatewaySilent();
    EdgeDevicesSilent();
    AnalyticsSystemSilent();
    CrmNonSapSilent();
    SilentSystemsIn(Scanned);
  }

  lemma SystemsAtPlaceholder()
    ensures SelectExternal(Scanned) == Linked
  {
    SilentSystems();
    ThreePlWmsTriggered();
    PaymentGatewayTriggered();
    SystemsIn(Scanned);
  }

  lemma HostingAtPlaceholder()
    ensures SelectHosting(Scanned) == Cloud
  {
    NoOnDashPrem();
    NoOnPrem();
    NoDatacenter();
    NoHybrid();
  }

  lemma ScaleAtPlaceholder()
    ensures ScaleHint(Scanned) == DefaultScale
  {
    No100();
    No500();
    No1000();
    No5000();
    No10000();
    No20000();
    ScaleIn(Scanned);
  }

  /** Any capitalisation of the placeholder text selects SD, Ariba and IBP, then
      the core and UX modules, although it also names EWM and a financial close;
      links the 3PL/WMS and payment gateway systems; stays on cloud hosting; and
      keeps the default of 1000 named users, as "5k" spells no candidate. */
  lemma PlaceholderClassified(text: string)
    requires Lower(text) == Lower(Text)
    ensures ExtractRequirements(text) == Analysis(Picked + [Core, Ux], Linked, Cloud, DefaultScale)
  {
    LowerText();
    ModulesAtPlaceholder();
    SystemsAtPlaceholder();
    HostingAtPlaceholder();
    ScaleAtPlaceholder();
    Outcome(text, Scanned);
  }
}
