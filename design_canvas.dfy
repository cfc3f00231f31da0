/**
 * The design board's `Canvas`: text mode (a draft waiting for a click), the list of
 * placed texts, and the drag session that moves one of them. Window events, the draft
 * input and the mouse move it between states; the 3D scene that draws the texts is
 * not part of this model.
 */
module DesignCanvas {
  import opened Common
  import opened Ascii
  import opened RealFacts

  /** The style payload of the `activateTextMode` event. */
  datatype TextModeConfig = TextModeConfig(fontSize: real, fontFamily: string, color: string)

  datatype Position = Position(x: real, y: real, z: real)

  /** A placed text. */
  datatype TextConfig = TextConfig(content: string, fontSize: real, fontFamily: string,
                                   color: string, position: Position, id: string)

  /** `getBoundingClientRect()` of the board. */
  datatype Rect = Rect(left: real, top: real, width: real, height: real)

  /** A pointer position relative to the board's top-left corner. */
  datatype Point = Point(x: real, y: real)

  datatype Key = Enter | Escape | OtherKey

  /** The draft text mode starts with. */
  const DraftSeed: string := "Your Text Here"

  /** The board can be measured when it has a positive size; a missing board is handled
      by the handlers themselves. */
  predicate Measurable(rect: Option<Rect>) {
    rect.Some? ==> rect.value.width > 0.0 && rect.value.height > 0.0
  }

  /** The `* 4 - 2` map from board pixels to scene units: the board's width goes onto
      [-2, 2] left to right, its height onto [2, -2] top to bottom, z is 0. */
  function ToScene(x: real, y: real, rect: Rect): (p: Position)
    requires rect.width > 0.0 && rect.height > 0.0
  {
    Position((x / rect.width) * 4.0 - 2.0, -(y / rect.height) * 4.0 + 2.0, 0.0)
  }

  /** A point on the board lands in the square [-2, 2]² of the z = 0 plane; the board's
      left, right, top and bottom edges land on -2, 2, 2 and -2. */
  lemma ToSceneRange(x: real, y: real, rect: Rect)
    requires rect.width > 0.0 && rect.height > 0.0
    ensures var p := ToScene(x, y, rect);
      && p.z == 0.0
      && (0.0 <= x <= rect.width ==> -2.0 <= p.x <= 2.0)
      && (0.0 <= y <= rect.height ==> -2.0 <= p.y <= 2.0)
      && (x == 0.0 ==> p.x == -2.0)
      && (x == rect.width ==> p.x == 2.0)
      && (y == 0.0 ==> p.y == 2.0)
      && (y == rect.height ==> p.y == -2.0)
  {
    if 0.0 <= x <= rect.width {
      DivInUnit(x, rect.width);
    }
    if 0.0 <= y <= rect.height {
      DivInUnit(y, rect.height);
    }
    if x == rect.width {
      MulDivCancel(1.0, rect.width);
    }
    if y == rect.height {
      MulDivCancel(1.0, rect.height);
    }
  }

  /** The inverse map, from scene units back to board pixels. */
  function FromScene(p: Position, rect: Rect): (q: Point)
    requires rect.width > 0.0 && rect.height > 0.0
  {
    Point((p.x + 2.0) / 4.0 * rect.width, (2.0 - p.y) / 4.0 * rect.height)
  }

  /** Board pixels to scene and back is the identity. */
  lemma SceneRoundTrip(x: real, y: real, rect: Rect)
    requires rect.width > 0.0 && rect.height > 0.0
    ensures FromScene(ToScene(x, y, rect), rect) == Point(x, y)
  {
    DivMulCancel(x, rect.width);
    DivMulCancel(y, rect.height);
    assert (x / rect.width * 4.0 - 2.0 + 2.0) / 4.0 == x / rect.width;
    assert (2.0 - (-(y / rect.height) * 4.0 + 2.0)) / 4.0 == y / rect.height;
  }

  /** Scene to board pixels and back is the identity on the z = 0 plane, so `ToScene`
      is a bijection onto that plane. */
  lemma SceneRoundTripBack(p: Position, rect: Rect)
    requires rect.width > 0.0 && rect.height > 0.0 && p.z == 0.0
    ensures var q := FromScene(p, rect); ToScene(q.x, q.y, rect) == p
  {
    var q := FromScene(p, rect);
    MulDivCancel((p.x + 2.0) / 4.0, rect.width);
    MulDivCancel((2.0 - p.y) / 4.0, rect.height);
  }

  /** Moving right moves right in the scene; moving down moves down (y decreases). */
  lemma SceneMonotone(x1: real, y1: real, x2: real, y2: real, rect: Rect)
    requires rect.width > 0.0 && rect.height > 0.0
    requires x1 <= x2 && y1 <= y2
    ensures ToScene(x1, y1, rect).x <= ToScene(x2, y2, rect).x
    ensures ToScene(x1, y1, rect).y >= ToScene(x2, y2, rect).y
  {
    DivMonotone(x1, x2, rect.width);
    DivMonotone(y1, y2, rect.height);
  }

  /** The `prev.map(...)` of a drag move: the text with the given id gets the new
      position and nothing else changes, in any text. */
  function MoveText(texts: seq<TextConfig>, id: string, pos: Position): (r: seq<TextConfig>)
    ensures |r| == |texts|
    ensures forall i | 0 <= i < |r| :: r[i].(position := texts[i].position) == texts[i]
    ensures forall i | 0 <= i < |r| :: texts[i].id == id ==> r[i].position == pos
    ensures forall i | 0 <= i < |r| :: texts[i].id != id ==> r[i] == texts[i]
  {
    seq(|texts|, i requires 0 <= i < |texts| =>
      if texts[i].id == id then texts[i].(position := pos) else texts[i])
  }

  /** A drag of an id no text has changes nothing. */
  lemma MoveUnknownIsNoOp(texts: seq<TextConfig>, id: string, pos: Position)
    requires forall i | 0 <= i < |texts| :: texts[i].id != id
    ensures MoveText(texts, id, pos) == texts
  {
  }

  /** The text a commit appends: the draft, the mode's style, the position, a fresh id. */
  function Placed(content: string, config: TextModeConfig, pos: Position, id: string): TextConfig {
    TextConfig(content, config.fontSize, config.fontFamily, config.color, pos, id)
  }

  class Canvas {
    var texts: seq<TextConfig>
    var isTextMode: bool
    var textModeConfig: Option<TextModeConfig>
    var tempText: string
    var cursorPosition: Point
    var isDraggingText: bool
    var draggingTextId: Option<string>

    /** Text mode is on exactly when there is a style to place with, and a drag is on
        exactly when there is an id to drag. */
    ghost predicate Valid()
      reads this
    {
      && (isTextMode <==> textModeConfig.Some?)
      && (isDraggingText <==> draggingTextId.Some?)
    }

    /** Text mode and its draft are both off. */
    ghost predicate TextModeCleared()
      reads this
    {
      !isTextMode && textModeConfig == None && tempText == []
    }

    constructor ()
      ensures Valid() && TextModeCleared()
      ensures texts == [] && cursorPosition == Point(0.0, 0.0)
      ensures !isDraggingText && draggingTextId == None
    {
      texts := [];
      isTextMode := false;
      textModeConfig := None;
      tempText := [];
      cursorPosition := Point(0.0, 0.0);
      isDraggingText := false;
      draggingTextId := None;
    }

    /** `activateTextMode`: text mode on, with the event's style and the seeded draft. */
    method ActivateTextMode(config: TextModeConfig)
      requires Valid()
      modifies this
      ensures Valid()
      ensures isTextMode && textModeConfig == Some(config) && tempText == DraftSeed
      ensures texts == old(texts) && cursorPosition == old(cursorPosition)
      ensures isDraggingText == old(isDraggingText) && draggingTextId == old(draggingTextId)
    {
      isTextMode := true;
      textModeConfig := Some(config);
      tempText := DraftSeed;
    }

    /** The window's keydown: Escape in text mode leaves it and drops the draft; every
        other case changes nothing. */
    method KeyDown(key: Key)
      requires Valid()
      modifies this
      ensures Valid()
      ensures old(isTextMode) && key == Escape ==>
        TextModeCleared() && texts == old(texts) && cursorPosition == old(cursorPosition) &&
        isDraggingText == old(isDraggingText) && draggingTextId == old(draggingTextId)
      ensures !(old(isTextMode) && key == Escape) ==> unchanged(this)
    {
      if isTextMode && key == Escape {
        isTextMode := false;
        textModeConfig := None;
        tempText := [];
      }
    }

    /** The mouse moves over the board: the cursor is tracked, and during a drag the
        dragged text follows it. Without a board rectangle nothing happens. */
    method MouseMove(clientX: real, clientY: real, rect: Option<Rect>)
      requires Valid() && Measurable(rect)
      modifies this
      ensures Valid()
      ensures rect.None? ==> unchanged(this)
      ensures rect.Some? ==>
        var x, y := clientX - rect.value.left, clientY - rect.value.top;
        && cursorPosition == Point(x, y)
        && texts == (if old(isDraggingText) && old(draggingTextId).Some? && old(draggingTextId).value != []
                     then MoveText(old(texts), old(draggingTextId).value, ToScene(x, y, rect.value))
                     else old(texts))
        && isTextMode == old(isTextMode) && textModeConfig == old(textModeConfig)
        && tempText == old(tempText)
        && isDraggingText == old(isDraggingText) && draggingTextId == old(draggingTextId)
    {
      if rect.None? {
        return;
      }
      var r := rect.value;
      var x := clientX - r.left;
      var y := clientY - r.top;
      cursorPosition := Point(x, y);
      if isDraggingText && draggingTextId.Some? && draggingTextId.value != [] {
        texts := MoveText(texts, draggingTextId.value, ToScene(x, y, r));
      }
    }

    /** A mouse-down on the board. It does nothing outside text mode, on the draft input,
        without a board rectangle, or while the draft is blank after trimming (text mode
        then stays on; by `TrimEmptyIffAllSpace`, `trim()` is empty exactly when the draft
        is `AllSpace`). Otherwise it appends exactly one text, the draft placed where the
        mouse is, and leaves text mode. */
    method MouseDown(targetIsInput: bool, clientX: real, clientY: real, rect: Option<Rect>,
                     newId: string)
      requires Valid() && Measurable(rect)
      modifies this
      ensures Valid()
      ensures !old(isTextMode) || targetIsInput || rect.None? || AllSpace(old(tempText)) ==>
        unchanged(this)
      ensures old(isTextMode) && !targetIsInput && rect.Some? && !AllSpace(old(tempText)) ==>
        var x, y := clientX - rect.value.left, clientY - rect.value.top;
        && texts == old(texts) + [Placed(old(tempText), old(textModeConfig).value,
                                         ToScene(x, y, rect.value), newId)]
        && TextModeCleared()
        && cursorPosition == old(cursorPosition)
        && isDraggingText == old(isDraggingText) && draggingTextId == old(draggingTextId)
    {
      if !isTextMode {
        return;
      }
      if targetIsInput {
        return;
      }
      if rect.None? {
        return;
      }
      var r := rect.value;
      var x := clientX - r.left;
      var y := clientY - r.top;
      if textModeConfig.Some? && !AllSpace(tempText) {
        var newText := Placed(tempText, textModeConfig.value, ToScene(x, y, r), newId);
        texts := texts + [newText];
        isTextMode := false;
        textModeConfig := None;
        tempText := [];
      }
    }

    /** Typing in the draft input replaces the draft. */
    method TextInputChange(value: string)
      requires Valid()
      modifies this`tempText
      ensures Valid() && tempText == value
    {
      tempText := value;
    }

    /** A key in the draft input. Enter commits the draft at the last cursor position,
        without any blank check, and leaves text mode; without a board rectangle it does
        nothing. Escape drops the draft and leaves text mode. */
    method TextInputKeyDown(key: Key, rect: Option<Rect>, newId: string)
      requires Valid() && Measurable(rect)
      modifies this
      ensures Valid()
      ensures key == Enter && old(textModeConfig).Some? && rect.Some? ==>
        && texts == old(texts) + [Placed(old(tempText), old(textModeConfig).value,
                                         ToScene(old(cursorPosition).x, old(cursorPosition).y,
                                                 rect.value), newId)]
        && TextModeCleared()
        && cursorPosition == old(cursorPosition)
        && isDraggingText == old(isDraggingText) && draggingTextId == old(draggingTextId)
      ensures key == Enter && old(textModeConfig).Some? && rect.None? ==> unchanged(this)
      ensures key == Escape ==>
        && TextModeCleared() && texts == old(texts) && cursorPosition == old(cursorPosition)
        && isDraggingText == old(isDraggingText) && draggingTextId == old(draggingTextId)
      ensures key == OtherKey || (key == Enter && old(textModeConfig).None?) ==> unchanged(this)
    {
      if key == Enter && textModeConfig.Some? {
        if rect.None? {
          return;
        }
        var r := rect.value;
        var pos := ToScene(cursorPosition.x, cursorPosition.y, r);
        var newText := Placed(tempText, textModeConfig.value, pos, newId);
        texts := texts + [newText];
        isTextMode := false;
        textModeConfig := None;
        tempText := [];
      } else if key == Escape {
        isTextMode := false;
        textModeConfig := None;
        tempText := [];
      }
    }

    /** A pointer-down on a placed text starts dragging it. */
    method TextObjectMouseDown(textId: string)
      requires Valid()
      modifies this`isDraggingText, this`draggingTextId
      ensures Valid()
      ensures isDraggingText && draggingTextId == Some(textId)
    {
      isDraggingText := true;
      draggingTextId := Some(textId);
    }

    /** Releasing the button ends any drag. */
    method MouseUp()
      requires Valid()
      modifies this`isDraggingText, this`draggingTextId
      ensures Valid()
      ensures !isDraggingText && draggingTextId == None
    {
      isDraggingText := false;
      draggingTextId := None;
    }

    /** Leaving the board ends any drag, exactly as releasing does. */
    method MouseLeave()
      requires Valid()
      modifies this`isDraggingText, this`draggingTextId
      ensures Valid()
      ensures !isDraggingText && draggingTextId == None
    {
      isDraggingText := false;
      draggingTextId := None;
    }
  }

  /** A blank draft: a click cannot place it, Enter in the input can. */
  method BlankDraftScenario(config: TextModeConfig, rect: Rect, id: string)
    returns (afterClick: seq<TextConfig>, stillInTextMode: bool, afterEnter: seq<TextConfig>)
    requires rect.width > 0.0 && rect.height > 0.0
    ensures afterClick == [] && stillInTextMode
    ensures |afterEnter| == 1 && afterEnter[0].content == "  " && afterEnter[0].id == id
  {
    var board := new Canvas();
    board.ActivateTextMode(config);
    board.TextInputChange("  ");
    assert AllSpace("  ");
    board.MouseDown(false, rect.left, rect.top, Some(rect), id);
    afterClick := board.texts;
    stillInTextMode := board.isTextMode;
    board.TextInputKeyDown(Enter, Some(rect), id);
    afterEnter := board.texts;
  }

  /** The seeded draft is not blank, so a click can place it. */
  lemma DraftSeedNotBlank()
    ensures !AllSpace(DraftSeed)
  {
    assert !IsSpace(DraftSeed[0]);
  }

  /** The board's bottom-right corner, as the move handler computes it from client
      coordinates, is (2, -2) in the scene. */
  lemma BottomRightCorner(rect: Rect)
    requires rect.width > 0.0 && rect.height > 0.0
    ensures ToScene(rect.left + rect.width - rect.left, rect.top + rect.height - rect.top, rect)
      == Position(2.0, -2.0, 0.0)
  {
    assert rect.left + rect.width - rect.left == rect.width;
    assert rect.top + rect.height - rect.top == rect.height;
    ToSceneRange(rect.width, rect.height, rect);
  }

  /** Dragging the only text moves it and keeps everything else about it. */
  lemma MoveOnly(t: TextConfig, pos: Position)
    ensures MoveText([t], t.id, pos) == [t.(position := pos)]
  {
  }

  /** Placing a text and dragging it to the board's bottom-right corner: the text lands
      at (2, -2) in the scene and keeps its content and id. */
  method PlaceAndDragScenario(config: TextModeConfig, rect: Rect, id: string)
    returns (placed: seq<TextConfig>)
    requires rect.width > 0.0 && rect.height > 0.0 && id != []
    ensures |placed| == 1
    ensures placed[0].content == DraftSeed && placed[0].id == id
    ensures placed[0].position == Position(2.0, -2.0, 0.0)
  {
    var board := new Canvas();
    board.ActivateTextMode(config);
    DraftSeedNotBlank();
    board.MouseDown(false, rect.left, rect.top, Some(rect), id);
    ghost var t := board.texts[0];
    assert board.texts == [t] && t.id == id && t.content == DraftSeed;
    board.TextObjectMouseDown(id);
    board.MouseMove(rect.left + rect.width, rect.top + rect.height, Some(rect));
    var corner := ToScene(rect.left + rect.width - rect.left, rect.top + rect.height - rect.top, rect);
    assert board.texts == MoveText([t], id, corner);
    BottomRightCorner(rect);
    MoveOnly(t, corner);
    board.MouseUp();
    placed := board.texts;
  }
}
