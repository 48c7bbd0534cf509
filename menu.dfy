/** The title screen's menu: a list of items, one of them active and drawn
    in the highlight colour, moved down by S or the down arrow and up by
    W or the up arrow, and activated with return or space. */
module Menus {
  import opened Lists
  import opened Host

  type Color = (int, int, int)

  const White: Color := (255, 255, 255)
  const Black: Color := (0, 0, 0)
  const Highlight: Color := (255, 140, 140)

  /** The scene names `activate` acts on. */
  const ValidScenes: seq<string> := ["help", "level1"]

  /** How a menu operation ends: normally, or by raising an exception
      before it changed anything. */
  datatype Outcome = Done | Raised

  /** Where the active index goes on the down key: one further, unless it
      is at the last of `n` items. */
  function NextIndex(i: nat, n: nat): (j: nat)
    requires i < n
    ensures j < n && (j == i + 1 || (j == i && i == n - 1))
  {
    if i == n - 1 then i else i + 1
  }

  /** Where the active index goes on the up key: one back, unless it is at
      the first item. */
  function PreviousIndex(i: nat): (j: nat)
    ensures j <= i && (j == i - 1 || (j == i && i == 0))
  {
    if i == 0 then i else i - 1
  }

  /** Down then up returns to the item left, unless it was the last one;
      up then down returns to it unless it was the first. */
  lemma NextPreviousInverse(i: nat, n: nat)
    requires i < n
    ensures i < n - 1 ==> PreviousIndex(NextIndex(i, n)) == i
    ensures 0 < i ==> NextIndex(PreviousIndex(i), n) == i
    ensures i == n - 1 ==> PreviousIndex(NextIndex(i, n)) == PreviousIndex(i)
  {
  }

  /** Exactly the item at index `a` has the highlight colour (none when
      `a` is not an index). */
  ghost predicate OneLit(cs: seq<Color>, a: int) {
    forall j :: 0 <= j < |cs| ==> (cs[j] == Highlight <==> j == a)
  }

  /** The colours after the active item moves from index `from` (or from
      none, when `from` is not an index) to index `to`: the old one goes
      back to white, the new one is highlighted. */
  function Recolor(cs: seq<Color>, from: int, to: nat): (r: seq<Color>)
    requires to < |cs|
    ensures |r| == |cs| && r[to] == Highlight
    ensures forall j :: 0 <= j < |cs| && j != to && j != from ==> r[j] == cs[j]
  {
    (if 0 <= from < |cs| then cs[from := White] else cs)[to := Highlight]
  }

  /** Moving the highlight keeps exactly one item lit: the new active one. */
  lemma RecolorKeepsOneLit(cs: seq<Color>, from: int, to: nat)
    requires to < |cs| && OneLit(cs, from)
    ensures OneLit(Recolor(cs, from, to), to)
  {
    var r := Recolor(cs, from, to);
    forall j | 0 <= j < |cs|
      ensures r[j] == Highlight <==> j == to
    {
      if j != to && j == from {
        assert r[j] == White;
      }
    }
  }

  /** The scene requests activating an item with this scene name makes:
      one for the two valid names, none for any other. */
  function Requests(sceneName: string): (r: seq<SceneRequest>)
    ensures r != [] <==> sceneName in ValidScenes
  {
    if sceneName in ValidScenes then [SetCurrentScene(sceneName)] else []
  }

  /** "quit" stops the game without a scene request; "help" and "level1"
      request their scene; every other name, such as "gameplay", does
      nothing. */
  lemma ActivateNames()
    ensures Requests("quit") == []
    ensures Requests("help") == [SetCurrentScene("help")]
    ensures Requests("level1") == [SetCurrentScene("level1")]
    ensures Requests("gameplay") == []
  {
    assert "quit" != "help" && "quit" != "level1";
    assert "gameplay" != "help" && "gameplay" != "level1";
  }

  /** One entry of the menu. */
  class Item {
    const text: string
    const sceneName: string
    const backgroundColor: Color
    var textColor: Color

    constructor (text: string, sceneName: string, textColor: Color, backgroundColor: Color)
      ensures this.text == text && this.sceneName == sceneName
      ensures this.textColor == textColor && this.backgroundColor == backgroundColor
    {
      this.text := text;
      this.sceneName := sceneName;
      this.textColor := textColor;
      this.backgroundColor := backgroundColor;
    }
  }

  class Menu {
    const game: Game
    const title: string
    var items: seq<Item>
    var activeItem: Item?

    /** No item is listed twice; there is an active item exactly when
        there are items, it is one of them and it is highlighted. */
    ghost predicate Valid()
      reads this, activeItem
    {
      && Listed()
      && (activeItem == null <==> items == [])
      && (activeItem != null ==> activeItem.textColor == Highlight)
    }

    /** No item is listed twice and the active item, if any, is listed. */
    ghost predicate Listed()
      reads this
    {
      && (forall i, j :: 0 <= i < j < |items| ==> items[i] != items[j])
      && (activeItem != null ==> activeItem in items)
    }

    /** The items' text colours, in menu order. */
    ghost function Colors(): (cs: seq<Color>)
      reads this, set it | it in items
      ensures |cs| == |items|
    {
      seq(|items|, j reads this, set it | it in items requires 0 <= j < |items| => items[j].textColor)
    }

    /** The index of the active item, or -1 when there is none. */
    ghost function Active(): (a: int)
      reads this
      ensures -1 <= a < |items|
      ensures a >= 0 ==> items[a] == activeItem
    {
      if activeItem != null && activeItem in items then IndexOf(items, activeItem) else -1
    }

    /** The highlight is on the active item and on no other. */
    ghost predicate Lit()
      reads this, set it | it in items
    {
      OneLit(Colors(), Active())
    }

    constructor (game: Game, title: string)
      ensures this.game == game && this.title == title
      ensures items == [] && activeItem == null && Valid() && Lit()
    {
      this.game := game;
      this.title := title;
      items := [];
      activeItem := null;
    }

    /** Append a new item; the first item added becomes the active one. */
    method AddItem(itemString: string, sceneName: string, textColor: Color := White,
                   backgroundColor: Color := Black)
      requires Valid()
      modifies this`items, this`activeItem
      ensures Valid()
      ensures |items| == |old(items)| + 1 && items[..|old(items)|] == old(items)
      ensures fresh(items[|old(items)|])
      ensures items[|old(items)|].text == itemString && items[|old(items)|].sceneName == sceneName
      ensures activeItem == if old(activeItem) == null then items[|old(items)|] else old(activeItem)
      ensures Colors() == old(Colors()) + [if old(activeItem) == null then Highlight else textColor]
      ensures old(Lit()) && textColor != Highlight ==> Lit()
    {
      var newItem := new Item(itemString, sceneName, textColor, backgroundColor);
      ghost var cs := Colors();
      items := items + [newItem];
      assert Colors() == cs + [textColor];
      if activeItem == null {
        var r := SetActiveItem(newItem);
      }
      assert Active() == if old(activeItem) == null then |old(items)| else old(Active()) by {
        if old(activeItem) != null {
          IndexOfPrefix(old(items), newItem, activeItem);
        }
      }
    }

    /** Make `item` the active one and move the highlight to it; an item
        not in this menu raises. */
    method SetActiveItem(item: Item) returns (r: Outcome)
      requires Listed()
      modifies this`activeItem, (set it | it in items)`textColor
      ensures Listed() && items == old(items) && (old(Valid()) ==> Valid())
      ensures item == old(activeItem) ==> r == Done && activeItem == item && Colors() == old(Colors())
      ensures item != old(activeItem) && item !in items ==>
        r == Raised && activeItem == old(activeItem) && Colors() == old(Colors())
      ensures item != old(activeItem) && item in items ==>
        && r == Done && activeItem == item && Valid()
        && Colors() == Recolor(old(Colors()), old(Active()), IndexOf(items, item))
      ensures old(Lit()) ==> Lit()
    {
      if activeItem == item {
        return Done;
      } else if item in items {
        ghost var cs := Colors();
        ghost var from := Active();
        ghost var to := IndexOf(items, item);
        if activeItem != null {
          activeItem.textColor := White;
        }
        activeItem := item;
        activeItem.textColor := Highlight;
        assert Colors() == Recolor(cs, from, to);
        if OneLit(cs, from) {
          RecolorKeepsOneLit(cs, from, to);
        }
        return Done;
      } else {
        return Raised;
      }
    }

    /** The down key: the next item becomes active, unless the last one
        already is. With no active item, looking it up raises. */
    method SetNextAsActive() returns (r: Outcome)
      requires Valid()
      modifies this`activeItem, (set it | it in items)`textColor
      ensures Valid() && items == old(items)
      ensures old(activeItem) == null ==> r == Raised && activeItem == null && Colors() == old(Colors())
      ensures old(activeItem) != null ==>
        && r == Done
        && Active() == NextIndex(old(Active()), |items|)
        && Colors() == if Active() == old(Active()) then old(Colors()) else Recolor(old(Colors()), old(Active()), Active())
      ensures old(Lit()) ==> Lit()
    {
      if activeItem == null {
        return Raised;
      }
      var currentActiveIndex := IndexOf(items, activeItem);
      if currentActiveIndex == |items| - 1 {
        return Done;
      }
      r := SetActiveItem(items[currentActiveIndex + 1]);
      Unique(items, currentActiveIndex + 1);
    }

    /** The up key: the previous item becomes active, unless the first one
        already is. With no active item, looking it up raises. */
    method SetPreviousAsActive() returns (r: Outcome)
      requires Valid()
      modifies this`activeItem, (set it | it in items)`textColor
      ensures Valid() && items == old(items)
      ensures old(activeItem) == null ==> r == Raised && activeItem == null && Colors() == old(Colors())
      ensures old(activeItem) != null ==>
        && r == Done
        && Active() == PreviousIndex(old(Active()))
        && Colors() == if Active() == old(Active()) then old(Colors()) else Recolor(old(Colors()), old(Active()), Active())
      ensures old(Lit()) ==> Lit()
    {
      if activeItem == null {
        return Raised;
      }
      var currentActiveIndex := IndexOf(items, activeItem);
      if currentActiveIndex == 0 {
        return Done;
      }
      r := SetActiveItem(items[currentActiveIndex - 1]);
      Unique(items, currentActiveIndex - 1);
    }

    /** Enter: "quit" stops the game, "help" and "level1" request their
        scene, any other name only prints a hint. With no active item,
        reading its scene name raises. */
    method Activate() returns (r: Outcome)
      modifies game`isRunning, game`requests
      ensures activeItem == null ==>
        r == Raised && game.isRunning == old(game.isRunning) && game.requests == old(game.requests)
      ensures activeItem != null ==>
        && r == Done
        && game.isRunning == (old(game.isRunning) && activeItem.sceneName != "quit")
        && game.requests == old(game.requests) + Requests(activeItem.sceneName)
    {
      if activeItem == null {
        return Raised;
      }
      var scene := activeItem.sceneName;
      if scene == "quit" {
        game.isRunning := false;
      }
      if scene in ValidScenes {
        game.requests := game.requests + [SetCurrentScene(scene)];
      }
      return Done;
    }
  }

  /** In a list without repeats, an element's first index is its index. */
  lemma Unique<T>(s: seq<T>, k: nat)
    requires k < |s| && forall i, j :: 0 <= i < j < |s| ==> s[i] != s[j]
    ensures IndexOf(s, s[k]) == k
  {
    var i := IndexOf(s, s[k]);
    assert s[i] == s[k];
  }

  /** Appending does not move an element already in the list. */
  lemma IndexOfPrefix<T>(s: seq<T>, x: T, y: T)
    requires y in s
    ensures IndexOf(s + [x], y) == IndexOf(s, y)
  {
    var i := IndexOf(s, y);
    var j := IndexOf(s + [x], y);
    assert (s + [x])[i] == y && (s + [x])[..j] == s[..j];
  }
}
