/**
 * The widget's mutable state and the handlers that change it: selection toggling,
 * removal and clearing, catalog loading, routine generation and chat follow-ups.
 * Each write to local storage is recorded as a snapshot of the value written.
 */
module App {
  import opened Wrappers
  import opened Text
  import opened Selection
  import opened Catalog
  import opened Chat

  /** Shown (by `appendChatMessage`) when routine generation is asked for with nothing selected. */
  const SelectFirstGuidance: string := "Please select at least one product to generate a routine."

  /** Shown as the user's turn of a routine request, in place of the full prompt. */
  const GeneratePlaceholder: string := "Generate routine for selected products..."

  /** What fetching `products.json` produced: the `products` field (if any), or a thrown error. */
  datatype CatalogFetch = Loaded(products: Option<seq<Product>>) | LoadFailed

  class RoutineBuilder {
    /** `allProducts` */
    var catalog: seq<Product>
    /** `selectedIds`, a `Set` of id strings in insertion order */
    var selectedIds: seq<string>
    /** `chatHistory` */
    var chatHistory: seq<Message>
    /** the value last written under the "selectedProducts" key */
    var storedSelection: seq<string>
    /** the value last written under the "chatHistory" key */
    var storedHistory: seq<Message>
    /** the messages appended to the chat window, in order */
    var chatLog: seq<Message>

    ghost predicate Valid()
      reads this
    {
      NoDuplicates(selectedIds)
    }

    /**
     * Start-up: an empty catalog, the selection and history restored from their stored
     * arrays, and the stored history replayed into the chat window.
     */
    constructor (savedSelection: seq<string>, savedHistory: seq<Message>)
      ensures Valid()
      ensures catalog == []
      ensures selectedIds == FromArray(savedSelection)
      ensures chatHistory == savedHistory && chatLog == savedHistory
      ensures storedSelection == savedSelection && storedHistory == savedHistory
    {
      catalog := [];
      selectedIds := FromArray(savedSelection);
      chatHistory := savedHistory;
      storedSelection := savedSelection;
      storedHistory := savedHistory;
      chatLog := savedHistory;
    }

    /** `loadProducts`: a loaded file replaces the catalog (`data.products || []`); a failure keeps it. */
    method LoadProducts(fetched: CatalogFetch)
      requires Valid()
      modifies this`catalog
      ensures Valid()
      ensures catalog == match fetched
        case Loaded(products) => products.GetOr([])
        case LoadFailed => old(catalog)
    {
      match fetched
      case Loaded(products) =>
        catalog := products.GetOr([]);
      case LoadFailed =>
    }

    /** `toggleSelection(productId)`: flips the membership of `String(productId)` and saves. */
    method ToggleSelection(productId: ProductId)
      requires Valid()
      modifies this`selectedIds, this`storedSelection
      ensures Valid()
      ensures var key := IdString(productId);
        && (key in selectedIds <==> key !in old(selectedIds))
        && (forall y :: y != key ==> (y in selectedIds <==> y in old(selectedIds)))
        && selectedIds == Toggled(old(selectedIds), key)
      ensures storedSelection == selectedIds
      ensures FromArray(storedSelection) == selectedIds
    {
      var key := IdString(productId);
      if key in selectedIds {
        selectedIds := Removed(selectedIds, key);
      } else {
        selectedIds := selectedIds + [key];
      }
      storedSelection := selectedIds;
    }

    /** The remove button of the selected list: `String(id)` is no longer selected, nothing else changes. */
    method RemoveSelection(productId: ProductId)
      requires Valid()
      modifies this`selectedIds, this`storedSelection
      ensures Valid()
      ensures var key := IdString(productId);
        && key !in selectedIds
        && (forall y :: y != key ==> (y in selectedIds <==> y in old(selectedIds)))
        && (key !in old(selectedIds) ==> selectedIds == old(selectedIds))
        && selectedIds == Removed(old(selectedIds), key)
      ensures storedSelection == selectedIds
      ensures FromArray(storedSelection) == selectedIds
    {
      selectedIds := Removed(selectedIds, IdString(productId));
      storedSelection := selectedIds;
    }

    /** The clear button: the selection becomes empty and `[]` is saved. */
    method ClearSelections()
      requires Valid()
      modifies this`selectedIds, this`storedSelection
      ensures Valid()
      ensures selectedIds == [] && storedSelection == []
      ensures FromArray(storedSelection) == selectedIds
    {
      selectedIds := [];
      storedSelection := [];
    }

    /**
     * The generate-routine handler. With no selected catalog product it only shows the
     * guidance message and sends nothing. Otherwise it sends the history plus the prompt built
     * from the selected products (`compose` stands for the prompt text), and afterwards
     * the history has grown by exactly the prompt and the reply, and is saved.
     * The returned list is what was sent to the worker, `None` when nothing was sent.
     */
    method GenerateRoutine(compose: seq<Summary> -> string, outcome: WorkerOutcome, stringify: Json -> string)
      returns (sent: Option<seq<Message>>)
      requires Valid()
      modifies this`chatHistory, this`storedHistory, this`chatLog
      ensures Valid()
      ensures var chosen := SelectedProducts(catalog, selectedIds);
        if chosen == [] then
          && sent == None
          && chatHistory == old(chatHistory)
          && storedHistory == old(storedHistory)
          && chatLog == old(chatLog) + [Message(Assistant, JStr(SelectFirstGuidance))]
        else
          var prompt := JStr(compose(Summaries(chosen)));
          var reply := ExtractReply(outcome, stringify);
          && sent == Some(BuildMessages(old(chatHistory), prompt))
          && chatHistory == old(chatHistory) + [Message(User, prompt), Message(Assistant, reply)]
          && storedHistory == chatHistory
          && chatLog == old(chatLog) + [Message(User, JStr(GeneratePlaceholder)), Message(Assistant, reply)]
    {
      var selected := Summaries(SelectedProducts(catalog, selectedIds));
      if |selected| == 0 {
        chatLog := chatLog + [Message(Assistant, JStr(SelectFirstGuidance))];
        return None;
      }
      var userContent := JStr(compose(selected));
      chatLog := chatLog + [Message(User, JStr(GeneratePlaceholder))];
      var messages := BuildMessages(chatHistory, userContent);
      var reply := ExtractReply(outcome, stringify);
      chatLog := chatLog + [Message(Assistant, reply)];
      chatHistory := chatHistory + [Message(User, userContent)];
      chatHistory := chatHistory + [Message(Assistant, reply)];
      storedHistory := chatHistory;
      sent := Some(messages);
    }

    /**
     * The chat form: blank input (after trimming) changes nothing and sends nothing.
     * Otherwise the trimmed text is recorded and saved, the history (which now ends with
     * that text) plus the text is sent, and the reply is recorded and saved.
     */
    method SubmitFollowUp(input: string, outcome: WorkerOutcome, stringify: Json -> string)
      returns (sent: Option<seq<Message>>)
      requires Valid()
      modifies this`chatHistory, this`storedHistory, this`chatLog
      ensures Valid()
      ensures var text := Trim(input);
        if text == "" then
          && sent == None
          && chatHistory == old(chatHistory)
          && storedHistory == old(storedHistory)
          && chatLog == old(chatLog)
        else
          var turn := Message(User, JStr(text));
          var reply := ExtractReply(outcome, stringify);
          && sent == Some(BuildMessages(old(chatHistory) + [turn], JStr(text)))
          && chatHistory == old(chatHistory) + [turn, Message(Assistant, reply)]
          && storedHistory == chatHistory
          && chatLog == old(chatLog) + [turn, Message(Assistant, reply)]
    {
      var text := Trim(input);
      if |text| == 0 {
        return None;
      }
      var turn := Message(User, JStr(text));
      ghost var pushed := old(chatHistory) + [turn];
      chatLog := chatLog + [turn];
      chatHistory := chatHistory + [turn];
      storedHistory := chatHistory;
      assert chatHistory == pushed;
      var messages := BuildMessages(chatHistory, JStr(text));
      assert messages == BuildMessages(pushed, JStr(text));
      var reply := ExtractReply(outcome, stringify);
      chatLog := chatLog + [Message(Assistant, reply)];
      chatHistory := chatHistory + [Message(Assistant, reply)];
      storedHistory := chatHistory;
      sent := Some(messages);
      assert chatHistory == old(chatHistory) + [turn, Message(Assistant, reply)];
      assert chatLog == old(chatLog) + [turn, Message(Assistant, reply)];
    }
  }

  /** A routine request and its answer: toggling a product on and generating sends its summary and records the reply. */
  method ExampleSession(stringify: Json -> string, compose: seq<Summary> -> string)
  {
    var cleanser := Product(NumId(1), "Cleanser", "A", "cleanser", Some("gentle"), "cleanser.jpg");
    var app := new RoutineBuilder([], []);
    assert app.selectedIds == [];
    app.LoadProducts(Loaded(Some([cleanser])));
    app.ToggleSelection(StrId("1"));
    assert app.selectedIds == Toggled([], "1") == ["1"];
    assert IdString(cleanser.id) == "1";
    assert SelectedProducts(app.catalog, app.selectedIds) == [cleanser];
    var reply := JObj(map["reply" := JStr("Use daily.")]);
    var sent := app.GenerateRoutine(compose, Responded(reply), stringify);
    assert sent.Some?;
    assert app.chatHistory[|app.chatHistory| - 1] == Message(Assistant, JStr("Use daily."));
  }
}
