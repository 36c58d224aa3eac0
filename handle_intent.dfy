/**
 * The example application's intent handler: a small dialogue state
 * machine whose state is the last node it answered with. Repeating
 * answers with that node again; every other intent picks a new node and
 * remembers it, and an intent it does not know returns to the greeting.
 */
module HandleIntent {

  /** A dialogue node: its name, its prompt, and whether speech may not interrupt it. */
  datatype Node = Node(node: string, prompt: string, noInterrupt: bool)

  /** The recognised intent and, by slot name, the text each slot's value renders as. */
  datatype NluResult = NluResult(intent: string, slots: map<string, string>)

  const RepeatIntent: string := "AMAZON.RepeatIntent"
  const YesIntent: string := "AMAZON.YesIntent"
  const NoIntent: string := "AMAZON.NoIntent"
  const StopIntent: string := "AMAZON.StopIntent"
  const CancelIntent: string := "AMAZON.CancelIntent"
  const FallbackIntent: string := "AMAZON.FallbackIntent"
  const RecipeIntent: string := "RecipeIntent"
  const HelpIntent: string := "AMAZON.HelpIntent"

  /** The intents with a case of their own. */
  const KnownIntents: set<string> :=
    {RepeatIntent, YesIntent, NoIntent, StopIntent, CancelIntent, FallbackIntent, RecipeIntent, HelpIntent}

  const Greeting: Node :=
    Node("greeting", "Welcome! This example uses Minecraft sample models. Try saying, \"How do I make a castle?\"", true)
  const Search: Node := Node("search", "I heard you say yes! What would you like to make?", false)
  const ExitOnNo: Node := Node("exit", "I heard you say no. Goodbye.", false)
  const Goodbye: Node := Node("exit", "Goodbye!", false)
  const Help: Node := Node("help", "Try saying, \"How do I make a castle?\". To exit, say \"exit\".", false)

  const RecipeLead: string := "If I were a real app, I would show a screen now on how to make "
  const RecipeTail: string := ". Want to continue?"

  /** What the recipe prompt says is being made: `a <Item>` when the slot is there, `something` otherwise. */
  function ItemPhrase(slots: map<string, string>): (p: string)
    ensures "Item" in slots ==> p == "a " + slots["Item"]
    ensures "Item" !in slots ==> p == "something"
  {
    if "Item" in slots then "a " + slots["Item"] else "something"
  }

  /** The recipe prompt: the fixed lead and tail around the item phrase. */
  function RecipePrompt(slots: map<string, string>): (p: string)
    ensures |p| == |RecipeLead| + |ItemPhrase(slots)| + |RecipeTail|
    ensures p[..|RecipeLead|] == RecipeLead
    ensures p[|RecipeLead|..|p| - |RecipeTail|] == ItemPhrase(slots)
    ensures p[|p| - |RecipeTail|..] == RecipeTail
  {
    RecipeLead + ItemPhrase(slots) + RecipeTail
  }

  /** The node an intent leads to from the last node. */
  function Next(last: Node, result: NluResult): (r: Node)
    ensures result.intent == RepeatIntent ==> r == last
    ensures result.intent == YesIntent ==> r == Search
    ensures result.intent == NoIntent ==> r == ExitOnNo
    ensures result.intent in {StopIntent, CancelIntent, FallbackIntent} ==> r == Goodbye
    ensures result.intent == RecipeIntent ==> r == Node("recipe", RecipePrompt(result.slots), false)
    ensures result.intent == HelpIntent ==> r == Help
    ensures result.intent !in KnownIntents ==> r == Greeting
  {
    var i := result.intent;
    if i == RepeatIntent then last
    else if i == YesIntent then Search
    else if i == NoIntent then ExitOnNo
    else if i == StopIntent || i == CancelIntent || i == FallbackIntent then Goodbye
    else if i == RecipeIntent then Node("recipe", RecipePrompt(result.slots), false)
    else if i == HelpIntent then Help
    else Greeting
  }

  /** The nodes the handler can be at: the greeting is the only one speech may not interrupt. */
  predicate Reachable(n: Node)
  {
    n == Greeting || n == Search || n == ExitOnNo || n == Goodbye || n == Help ||
    (n.node == "recipe" && !n.noInterrupt)
  }

  /** Every step keeps the handler at a reachable node. */
  lemma NextReachable(last: Node, result: NluResult)
    requires Reachable(last)
    ensures Reachable(Next(last, result))
    ensures Next(last, result).noInterrupt <==> Next(last, result) == Greeting
  {
  }

  /** Only Repeat depends on the past: any other intent leads to the same node from anywhere. */
  lemma NextForgetsPast(l1: Node, l2: Node, result: NluResult)
    requires result.intent != RepeatIntent
    ensures Next(l1, result) == Next(l2, result)
  {
  }

  /** The node after a conversation: the intents applied in order. */
  function Run(last: Node, results: seq<NluResult>): Node
    decreases |results|
  {
    if results == [] then last else Run(Next(last, results[0]), results[1..])
  }

  /** A conversation that starts at a reachable node stays at reachable nodes. */
  lemma {:induction false} RunReachable(last: Node, results: seq<NluResult>)
    requires Reachable(last)
    ensures Reachable(Run(last, results))
    decreases |results|
  {
    if results != [] {
      NextReachable(last, results[0]);
      RunReachable(Next(last, results[0]), results[1..]);
    }
  }

  /** Repeats at the end of a conversation change nothing. */
  lemma {:induction false} RunTrailingRepeats(last: Node, results: seq<NluResult>, repeats: seq<NluResult>)
    requires forall k :: 0 <= k < |repeats| ==> repeats[k].intent == RepeatIntent
    ensures Run(last, results + repeats) == Run(last, results)
    decreases |results|
  {
    if results == [] {
      assert results + repeats == repeats;
      RepeatsKeep(last, repeats);
    } else {
      assert (results + repeats)[1..] == results[1..] + repeats;
      RunTrailingRepeats(Next(last, results[0]), results[1..], repeats);
    }
  }

  /** A run of repeats keeps the node. */
  lemma {:induction false} RepeatsKeep(last: Node, repeats: seq<NluResult>)
    requires forall k :: 0 <= k < |repeats| ==> repeats[k].intent == RepeatIntent
    ensures Run(last, repeats) == last
  {
    if repeats != [] {
      RepeatsKeep(last, repeats[1..]);
    }
  }

  /** The handler module, with its one piece of state. */
  class Handler {
    var lastNode: Node

    constructor()
      ensures lastNode == Greeting
    {
      lastNode := Greeting;
    }

    /** `handleIntent`: answers with a node and remembers it; Repeat answers with the remembered one. */
    method Handle(result: NluResult) returns (answer: Node)
      modifies this
      ensures lastNode == Next(old(lastNode), result)
      ensures answer == lastNode
      ensures result.intent == RepeatIntent ==> lastNode == old(lastNode)
    {
      var i := result.intent;
      if i == RepeatIntent {
        return lastNode;
      } else if i == YesIntent {
        lastNode := Search;
      } else if i == NoIntent {
        lastNode := ExitOnNo;
      } else if i == StopIntent || i == CancelIntent || i == FallbackIntent {
        lastNode := Goodbye;
      } else if i == RecipeIntent {
        lastNode := Node("recipe", RecipeLead + ItemPhrase(result.slots) + RecipeTail, false);
      } else if i == HelpIntent {
        lastNode := Help;
      } else {
        lastNode := Greeting;
      }
      answer := lastNode;
    }
  }
}
