/** Project-type detection in `generateResponse`: an if/elseif chain of keyword tests
    over the token list, checked in a fixed order, the first match winning. */
module Classifier {
  import opened PhpStrings

  /** The values `$project_type` can take: "student_exam_system", "inventory_system",
      "ecommerce_system", "blog_system" and the initial "general". */
  datatype Category = StudentExamSystem | InventorySystem | EcommerceSystem | BlogSystem | General

  /** PHP `in_array` with a non-numeric needle: plain string equality. */
  predicate InArray(w: Bytes, ts: seq<Bytes>)
  {
    w in ts
  }

  /** The chain as the controller writes it. In PHP `&&` binds tighter than `||`, so the
      ecommerce test reads `ecommerce || shop || store || (online && sell)` and the blog
      test `blog || (content && management)`. */
  function Classify(ts: seq<Bytes>): Category
  {
    if (InArray("student", ts) || InArray("students", ts)) &&
       (InArray("exam", ts) || InArray("test", ts) || InArray("quiz", ts)) then
      StudentExamSystem
    else if InArray("inventory", ts) || InArray("stock", ts) || InArray("warehouse", ts) then
      InventorySystem
    else if InArray("ecommerce", ts) || InArray("shop", ts) || InArray("store", ts) ||
            (InArray("online", ts) && InArray("sell", ts)) then
      EcommerceSystem
    else if InArray("blog", ts) || (InArray("content", ts) && InArray("management", ts)) then
      BlogSystem
    else
      General
  }

  // An independent statement of the same rules: each category's trigger written as a
  // disjunction of keyword sets, and a table of those triggers in priority order.

  /** A rule fires when all keywords of at least one of its clauses are tokens. */
  predicate Fires(clauses: seq<seq<Bytes>>, ts: seq<Bytes>)
  {
    exists k :: 0 <= k < |clauses| && forall w <- clauses[k] :: w in ts
  }

  datatype Rule = Rule(category: Category, clauses: seq<seq<Bytes>>)

  const RuleTable: seq<Rule> := [
    Rule(StudentExamSystem, [["student", "exam"], ["student", "test"], ["student", "quiz"],
                             ["students", "exam"], ["students", "test"], ["students", "quiz"]]),
    Rule(InventorySystem, [["inventory"], ["stock"], ["warehouse"]]),
    Rule(EcommerceSystem, [["ecommerce"], ["shop"], ["store"], ["online", "sell"]]),
    Rule(BlogSystem, [["blog"], ["content", "management"]])
  ]

  /** The category of the first rule of `table` that fires, or `General`. */
  function FirstMatch(table: seq<Rule>, ts: seq<Bytes>): Category
  {
    if table == [] then General
    else if Fires(table[0].clauses, ts) then table[0].category
    else FirstMatch(table[1..], ts)
  }

  /** `FirstMatch` returns the category of the lowest-numbered rule that fires, and
      `General` exactly when none fires. */
  lemma {:induction false} FirstMatchIsLeast(table: seq<Rule>, ts: seq<Bytes>)
    ensures (forall j :: 0 <= j < |table| ==> !Fires(table[j].clauses, ts)) ==>
              FirstMatch(table, ts) == General
    ensures forall k :: (0 <= k < |table| && Fires(table[k].clauses, ts) &&
                         (forall j :: 0 <= j < k ==> !Fires(table[j].clauses, ts))) ==>
              FirstMatch(table, ts) == table[k].category
  {
    if table != [] {
      FirstMatchIsLeast(table[1..], ts);
      forall k | 0 <= k < |table| && Fires(table[k].clauses, ts) &&
                 (forall j :: 0 <= j < k ==> !Fires(table[j].clauses, ts))
        ensures FirstMatch(table, ts) == table[k].category
      {
        if k > 0 {
          assert !Fires(table[0].clauses, ts);
          assert table[k] == table[1..][k - 1];
          forall j | 0 <= j < k - 1 ensures !Fires(table[1..][j].clauses, ts) {
            assert table[1..][j] == table[j + 1];
          }
        }
      }
      if forall j :: 0 <= j < |table| ==> !Fires(table[j].clauses, ts) {
        forall j | 0 <= j < |table| - 1 ensures !Fires(table[1..][j].clauses, ts) {
          assert table[1..][j] == table[j + 1];
        }
      }
    }
  }

  lemma StudentExamRuleFires(ts: seq<Bytes>)
    ensures Fires(RuleTable[0].clauses, ts) <==>
      ("student" in ts || "students" in ts) && ("exam" in ts || "test" in ts || "quiz" in ts)
  {
    var c := RuleTable[0].clauses;
    if ("student" in ts || "students" in ts) && ("exam" in ts || "test" in ts || "quiz" in ts) {
      var a := if "student" in ts then 0 else 3;
      var b := if "exam" in ts then 0 else if "test" in ts then 1 else 2;
      assert forall w <- c[a + b] :: w in ts;
    }
  }

  lemma InventoryRuleFires(ts: seq<Bytes>)
    ensures Fires(RuleTable[1].clauses, ts) <==> "inventory" in ts || "stock" in ts || "warehouse" in ts
  {
    var c := RuleTable[1].clauses;
    if "inventory" in ts { assert forall w <- c[0] :: w in ts; }
    if "stock" in ts { assert forall w <- c[1] :: w in ts; }
    if "warehouse" in ts { assert forall w <- c[2] :: w in ts; }
  }

  lemma EcommerceRuleFires(ts: seq<Bytes>)
    ensures Fires(RuleTable[2].clauses, ts) <==>
      "ecommerce" in ts || "shop" in ts || "store" in ts || ("online" in ts && "sell" in ts)
  {
    var c := RuleTable[2].clauses;
    if "ecommerce" in ts { assert forall w <- c[0] :: w in ts; }
    if "shop" in ts { assert forall w <- c[1] :: w in ts; }
    if "store" in ts { assert forall w <- c[2] :: w in ts; }
    if "online" in ts && "sell" in ts { assert forall w <- c[3] :: w in ts; }
  }

  lemma BlogRuleFires(ts: seq<Bytes>)
    ensures Fires(RuleTable[3].clauses, ts) <==> "blog" in ts || ("content" in ts && "management" in ts)
  {
    var c := RuleTable[3].clauses;
    if "blog" in ts { assert forall w <- c[0] :: w in ts; }
    if "content" in ts && "management" in ts { assert forall w <- c[1] :: w in ts; }
  }

  /** `FirstMatch` over the four-rule table, unfolded. */
  lemma FirstMatchOfRuleTable(ts: seq<Bytes>)
    ensures FirstMatch(RuleTable, ts) ==
      if Fires(RuleTable[0].clauses, ts) then StudentExamSystem
      else if Fires(RuleTable[1].clauses, ts) then InventorySystem
      else if Fires(RuleTable[2].clauses, ts) then EcommerceSystem
      else if Fires(RuleTable[3].clauses, ts) then BlogSystem
      else General
  {
    var t1 := RuleTable[1..];
    var t2 := t1[1..];
    var t3 := t2[1..];
    assert t1[0] == RuleTable[1] && t2[0] == RuleTable[2] && t3[0] == RuleTable[3];
    assert FirstMatch(t3, ts) == if Fires(RuleTable[3].clauses, ts) then BlogSystem else General by {
      assert t3[1..] == [];
    }
    assert FirstMatch(t2, ts) == if Fires(RuleTable[2].clauses, ts) then EcommerceSystem else FirstMatch(t3, ts);
    assert FirstMatch(t1, ts) == if Fires(RuleTable[1].clauses, ts) then InventorySystem else FirstMatch(t2, ts);
  }

  /** The controller's chain agrees with the priority table on every token list. */
  lemma ClassifyIsFirstMatch(ts: seq<Bytes>)
    ensures Classify(ts) == FirstMatch(RuleTable, ts)
  {
    StudentExamRuleFires(ts);
    InventoryRuleFires(ts);
    EcommerceRuleFires(ts);
    BlogRuleFires(ts);
    FirstMatchOfRuleTable(ts);
  }

  /** Rule order decides ties: student-and-exam keywords beat inventory keywords. */
  lemma StudentExamBeatsInventory(ts: seq<Bytes>)
    requires "student" in ts && "exam" in ts && "inventory" in ts
    ensures Classify(ts) == StudentExamSystem
  {
  }

  /** `online` triggers the ecommerce rule only together with `sell`. */
  lemma OnlineNeedsSell(ts: seq<Bytes>)
    ensures Classify(ts) == EcommerceSystem <==>
      !Fires(RuleTable[0].clauses, ts) && !Fires(RuleTable[1].clauses, ts) &&
      ("ecommerce" in ts || "shop" in ts || "store" in ts || ("online" in ts && "sell" in ts))
  {
    ClassifyIsFirstMatch(ts);
    FirstMatchOfRuleTable(ts);
  }

  /** `content` triggers the blog rule only together with `management`. */
  lemma ContentNeedsManagement(ts: seq<Bytes>)
    requires "blog" !in ts && "management" !in ts
    ensures Classify(ts) != BlogSystem
  {
  }

  /** Every category but `General` is only returned when its own rule fires. */
  lemma ClassifiedRuleFires(ts: seq<Bytes>, k: nat)
    requires k < |RuleTable| && Classify(ts) == RuleTable[k].category
    ensures Fires(RuleTable[k].clauses, ts)
    ensures forall j :: 0 <= j < k ==> !Fires(RuleTable[j].clauses, ts)
  {
    ClassifyIsFirstMatch(ts);
    FirstMatchOfRuleTable(ts);
  }
}
