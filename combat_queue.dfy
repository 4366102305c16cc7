/** The combat handler of world/handlers/combat_handler.py: it keeps the
    combatants of one room, a queue of actions per combatant, and a round
    counter. A queue is a list of action names with the next action at
    index 0; some actions stay at the front until they succeed. */
module CombatQueue {
  import opened Wrappers

  /** The actions `remove_action` leaves at the front: the character keeps
      trying them until they succeed. */
  const STICKY: set<string> := {"flee", "yield", "disengage"}

  // ---------------------------------------------------------------------
  // The queue of one combatant
  // ---------------------------------------------------------------------

  /** `turn_actions[dbref].insert(0, action)`. */
  function Push(queue: seq<string>, action: string): (r: seq<string>)
    ensures |r| == |queue| + 1 && r[0] == action && r[1..] == queue
  {
    [action] + queue
  }

  /** The action `remove_action` returns for a queue, and the queue it
      leaves: the default attack for an empty queue; the front, left in
      place, when it is the default attack or sticky; otherwise the front,
      popped. */
  function NextAction(queue: seq<string>, default: string): (r: (string, seq<string>))
    ensures queue == [] ==> r == (default, [])
    ensures queue != [] ==> r.0 == queue[0]
    ensures r.1 == queue <==> queue == [] || queue[0] == default || queue[0] in STICKY
    ensures r.1 != queue ==> r.1 == queue[1..]
  {
    if |queue| == 0 then (default, queue)
    else if queue[0] == default then (default, queue)
    else if queue[0] in STICKY then (queue[0], queue)
    else (queue[0], queue[1..])
  }

  /** Removing right after adding an action that is neither the default
      attack nor sticky returns that action and restores the queue. */
  lemma RemoveUndoesPush(queue: seq<string>, action: string, default: string)
    requires action != default && action !in STICKY
    ensures NextAction(Push(queue, action), default) == (action, queue)
  {
  }

  /** A default or sticky front is returned again and again: removing from
      the queue it leaves gives the same action and the same queue. */
  lemma StickyFrontRepeats(queue: seq<string>, default: string)
    requires queue != [] && (queue[0] == default || queue[0] in STICKY)
    ensures NextAction(NextAction(queue, default).1, default) == NextAction(queue, default)
  {
  }

  /** A change to one queue. */
  datatype QueueOp = AddAction(action: string) | RemoveAction

  /** One operation applied to a queue. */
  function Step(queue: seq<string>, default: string, op: QueueOp): seq<string>
  {
    match op
    case AddAction(action) => Push(queue, action)
    case RemoveAction => NextAction(queue, default).1
  }

  /** A sequence of operations applied in turn. */
  function Run(queue: seq<string>, default: string, ops: seq<QueueOp>): seq<string>
    decreases |ops|
  {
    if ops == [] then queue else Run(Step(queue, default, ops[0]), default, ops[1..])
  }

  /** The queue is not empty and ends with the default attack. */
  predicate EndsWithDefault(queue: seq<string>, default: string)
  {
    queue != [] && queue[|queue| - 1] == default
  }

  /** A queue ending with the default attack keeps it at its end under one
      operation: a push adds at the front, and a pop of the last element is
      refused because that element is the default attack. */
  lemma StepKeepsDefaultLast(queue: seq<string>, default: string, op: QueueOp)
    requires EndsWithDefault(queue, default)
    ensures EndsWithDefault(Step(queue, default, op), default)
  {
    if op.RemoveAction? && |queue| == 1 {
      assert queue[0] == default;
    }
  }

  /** A queue ending with the default attack, as `add_character` sets it
      up, keeps it at its end under any sequence of adds and removes; in
      particular it is never empty. */
  lemma {:induction false} DefaultStaysLast(queue: seq<string>, default: string, ops: seq<QueueOp>)
    requires EndsWithDefault(queue, default)
    ensures EndsWithDefault(Run(queue, default, ops), default)
    decreases |ops|
  {
    if ops != [] {
      StepKeepsDefaultLast(queue, default, ops[0]);
      DefaultStaysLast(Step(queue, default, ops[0]), default, ops[1..]);
    }
  }

  /** `add_action` enforces no cap: `n` adds lengthen the queue by `n`,
      whatever its length already is. */
  lemma {:induction false} PushesUncapped(queue: seq<string>, default: string, actions: seq<string>)
    ensures |Run(queue, default, seq(|actions|, i requires 0 <= i < |actions| => AddAction(actions[i])))| == |queue| + |actions|
    decreases |actions|
  {
    var ops := seq(|actions|, i requires 0 <= i < |actions| => AddAction(actions[i]));
    if actions != [] {
      var rest := seq(|actions| - 1, i requires 0 <= i < |actions| - 1 => AddAction(actions[1..][i]));
      assert ops[1..] == rest;
      PushesUncapped(Push(queue, actions[0]), default, actions[1..]);
    }
  }

  /** A remove shortens the queue by at most one, and only at its front. */
  lemma RemoveShrinksAtFront(queue: seq<string>, default: string)
    ensures var q := NextAction(queue, default).1;
      |queue| - 1 <= |q| <= |queue| && q == queue[|queue| - |q|..]
  {
  }

  // ---------------------------------------------------------------------
  // The stop rule of `remove_character` (combat_handler.py:126-137)
  // ---------------------------------------------------------------------

  /** The combatants left after `remove_character` as written: it cleans
      the character up but deletes nothing from the handler. */
  function RemainingAsWritten(ids: set<nat>, id: nat): (r: set<nat>)
    ensures ids <= r && |r| == |ids|
    ensures id in ids ==> id in r
  {
    ids
  }

  /** The combatants left after `remove_character` as its documentation
      and `at_stop` intend: the character is deleted from the handler. */
  function Remaining(ids: set<nat>, id: nat): (r: set<nat>)
    ensures id !in r && r + ({id} * ids) == ids
  {
    ids - {id}
  }

  /** The handler stops when fewer than two combatants remain (the empty
      case and the one-combatant case both call `stop`). */
  predicate StopsWith(ids: set<nat>)
  {
    |ids| < 2
  }

  /** As written, removing a combatant never changes the count, so once two
      have been added no removal ever stops the handler: removing both of
      two combatants leaves the fight running. */
  lemma RemovalNeverStops(ids: set<nat>, id: nat)
    requires |ids| >= 2
    ensures !StopsWith(RemainingAsWritten(ids, id))
  {
  }

  /** Removing both of two combatants, one after the other, leaves the
      fight running. */
  lemma RemovingBothNeverStops()
    ensures !StopsWith(RemainingAsWritten(RemainingAsWritten({1, 2}, 1), 2))
  {
  }

  /** As intended, removing every combatant but one stops the handler, and
      removing one of three does not. */
  lemma RemovalStops(a: nat, b: nat, c: nat)
    requires a != b && b != c && a != c
    ensures StopsWith(Remaining({a, b}, a))
    ensures !StopsWith(Remaining({a, b, c}, a))
    ensures StopsWith(Remaining(Remaining({a, b, c}, a), b))
  {
    assert Remaining({a, b}, a) == {b};
    assert Remaining({a, b, c}, a) == {b, c};
    assert Remaining({b, c}, b) == {c};
  }

  // ---------------------------------------------------------------------
  // The handler
  // ---------------------------------------------------------------------

  /** A combatant: its id, its default attack, and the two entries of its
      `db.info` the handler writes. */
  class Character {
    const id: nat
    const defaultAttack: string
    var inCombat: bool
    var position: string

    constructor (id: nat, defaultAttack: string, position: string)
      ensures this.id == id && this.defaultAttack == defaultAttack
      ensures !inCombat && this.position == position
    {
      this.id := id;
      this.defaultAttack := defaultAttack;
      inCombat := false;
      this.position := position;
    }
  }

  /** `CombatHandler`: the script's attributes. The key's random number is
      a parameter; `stopped` records that `stop` was called. */
  class CombatHandler {
    var keyNumber: nat
    var interval: nat
    var startDelay: bool
    var persistent: bool
    var characters: map<nat, Character>
    var battlefieldMap: map<string, string>
    var turnActions: map<nat, seq<string>>
    var charTempVars: map<string, string>
    var roundCount: nat
    var stopped: bool

    /** `at_script_creation`: key "combat_handler_<n>" for a number between
        1 and 1000000, a five-second interval, no start delay, not
        persistent, nothing stored, and round 1. */
    constructor (keyNumber: nat)
      requires 1 <= keyNumber <= 1000000
      ensures this.keyNumber == keyNumber && interval == 5 && !startDelay && !persistent
      ensures characters == map[] && battlefieldMap == map[] && turnActions == map[] && charTempVars == map[]
      ensures roundCount == 1 && !stopped
    {
      this.keyNumber := keyNumber;
      interval, startDelay, persistent := 5, false, false;
      characters, battlefieldMap, turnActions, charTempVars := map[], map[], map[], map[];
      roundCount, stopped := 1, false;
    }

    /** `add_character`: the character is stored under its id, its queue
        is exactly its default attack, and it is in combat. */
    method AddCharacter(c: Character)
      modifies this`characters, this`turnActions, c`inCombat
      ensures characters == old(characters)[c.id := c]
      ensures turnActions == old(turnActions)[c.id := [c.defaultAttack]]
      ensures c.inCombat && c.position == old(c.position)
      ensures roundCount == old(roundCount) && stopped == old(stopped)
      ensures EndsWithDefault(turnActions[c.id], c.defaultAttack)
    {
      characters := characters[c.id := c];
      turnActions := turnActions[c.id := [c.defaultAttack]];
      c.inCombat := true;
    }

    /** `add_action`: the action goes to the front of the character's
        queue; a character without a queue raises a KeyError (`raised`) and
        nothing changes. */
    method AddAction(action: string, c: Character) returns (raised: bool)
      modifies this`turnActions
      ensures raised <==> c.id !in old(turnActions)
      ensures turnActions == if raised then old(turnActions) else old(turnActions)[c.id := Push(old(turnActions)[c.id], action)]
      ensures characters == old(characters) && roundCount == old(roundCount) && stopped == old(stopped)
    {
      if c.id !in turnActions {
        return true;
      }
      turnActions := turnActions[c.id := [action] + turnActions[c.id]];
      raised := false;
    }

    /** `remove_action`: the action for the round, and the queue NextAction
        leaves; a character without a queue raises a KeyError (None). */
    method RemoveAction(c: Character) returns (action: Option<string>)
      modifies this`turnActions
      ensures action.None? <==> c.id !in old(turnActions)
      ensures action.None? ==> turnActions == old(turnActions)
      ensures action.Some? ==>
        var (next, queue) := NextAction(old(turnActions)[c.id], c.defaultAttack);
        action.value == next && turnActions == old(turnActions)[c.id := queue]
      ensures characters == old(characters) && roundCount == old(roundCount) && stopped == old(stopped)
    {
      if c.id !in turnActions {
        return None;
      }
      var queue := turnActions[c.id];
      if |queue| == 0 {
        return Some(c.defaultAttack);
      }
      if queue[0] == c.defaultAttack {
        return Some(c.defaultAttack);
      } else if queue[0] in STICKY {
        return Some(queue[0]);
      } else {
        var popped := queue[0];
        turnActions := turnActions[c.id := queue[1..]];
        return Some(popped);
      }
    }

    /** `at_repeat`: the per-character work is still to be written, so a
        round only advances the counter. */
    method AtRepeat()
      modifies this`roundCount
      ensures roundCount == old(roundCount) + 1
      ensures turnActions == old(turnActions) && characters == old(characters) && stopped == old(stopped)
    {
      roundCount := roundCount + 1;
    }

    /** `remove_character`: a stored character is cleaned up (out of
        combat, standing), but stays in the handler; the handler stops
        when fewer than two characters are stored. */
    method RemoveCharacter(c: Character)
      modifies this`stopped, c`inCombat, c`position
      ensures characters == old(characters) && turnActions == old(turnActions)
      ensures c.id in old(characters) ==> !c.inCombat && c.position == "standing"
      ensures c.id !in old(characters) ==> c.inCombat == old(c.inCombat) && c.position == old(c.position)
      ensures stopped == (old(stopped) || StopsWith(RemainingAsWritten(old(characters).Keys, c.id)))
      ensures roundCount == old(roundCount)
    {
      if c.id in characters {
        c.inCombat := false;
        c.position := "standing";
      }
      if |characters| == 0 {
        stopped := true;
      } else if |characters| < 2 {
        stopped := true;
      }
      assert |characters.Keys| == |characters|;
    }
  }

  /** A round of the handler's life keeps the configuration: adding a
      character, queueing and taking an action, a tick and a removal leave
      what `at_script_creation` set up as it was. */
  method HandlerRound(h: CombatHandler, c: Character, action: string)
    modifies h, c
    ensures h.keyNumber == old(h.keyNumber) && h.interval == old(h.interval)
    ensures h.startDelay == old(h.startDelay) && h.persistent == old(h.persistent)
    ensures h.battlefieldMap == old(h.battlefieldMap) && h.charTempVars == old(h.charTempVars)
    ensures h.roundCount == old(h.roundCount) + 1
    ensures h.characters == old(h.characters)[c.id := c]
  {
    ghost var config := (h.keyNumber, h.interval, h.startDelay, h.persistent, h.battlefieldMap, h.charTempVars);
    h.AddCharacter(c);
    var raised := h.AddAction(action, c);
    var taken := h.RemoveAction(c);
    assert (h.keyNumber, h.interval, h.startDelay, h.persistent, h.battlefieldMap, h.charTempVars) == config;
    h.AtRepeat();
    h.RemoveCharacter(c);
    assert (h.keyNumber, h.interval, h.startDelay, h.persistent, h.battlefieldMap, h.charTempVars) == config;
  }
}
