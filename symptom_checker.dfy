/**
 * The symptom checker screen: two toggle-membership lists (selected symptoms
 * and bookmarked articles), the assistant chat with its delayed canned reply,
 * and the guard on the analysis button.
 */
module SymptomChecker {
  import opened JsText
  import opened Sequences

  // ---------------------------------------------------------------------------
  // Toggle lists
  // ---------------------------------------------------------------------------

  /** `list.filter((id) => id !== x)`: every occurrence of `x` removed, the rest
      kept in order. */
  function Remove(list: seq<int>, x: int): (r: seq<int>)
    ensures forall y :: y in r <==> y in list && y != x
    ensures |r| <= |list|
    ensures x !in list ==> r == list
    ensures IsSubsequence(r, list)
    ensures forall y :: multiset(r)[y] == if y == x then 0 else multiset(list)[y]
  {
    if |list| == 0 then []
    else if list[0] == x then
      assert list == [list[0]] + list[1..];
      Remove(list[1..], x)
    else
      var rest := Remove(list[1..], x);
      assert ([list[0]] + rest)[1..] == rest;
      assert list == [list[0]] + list[1..];
      [list[0]] + rest
  }

  /** toggleSymptom and toggleBookmark: remove the id when present, otherwise
      append it at the end. */
  function Toggle(list: seq<int>, x: int): (r: seq<int>)
    ensures x in list ==> x !in r && forall y :: y != x ==> (y in r <==> y in list)
    ensures x !in list ==> r == list + [x]
  {
    if x in list then Remove(list, x) else list + [x]
  }

  predicate NoDuplicates(list: seq<int>)
  {
    forall i, j :: 0 <= i < j < |list| ==> list[i] != list[j]
  }

  lemma {:induction false} RemoveKeepsNoDuplicates(list: seq<int>, x: int)
    requires NoDuplicates(list)
    ensures NoDuplicates(Remove(list, x))
  {
    if |list| > 0 {
      assert NoDuplicates(list[1..]) by {
        forall i, j | 0 <= i < j < |list| - 1
          ensures list[1..][i] != list[1..][j]
        {
          assert list[1..][i] == list[i + 1] && list[1..][j] == list[j + 1];
        }
      }
      RemoveKeepsNoDuplicates(list[1..], x);
      if list[0] != x {
        var rest := Remove(list[1..], x);
        assert list[0] !in list[1..];
        assert list[0] !in rest;
        var r := [list[0]] + rest;
        forall i, j | 0 <= i < j < |r|
          ensures r[i] != r[j]
        {
          if i == 0 {
            assert r[j] == rest[j - 1];
          } else {
            assert r[i] == rest[i - 1] && r[j] == rest[j - 1];
          }
        }
      }
    }
  }

  /** A toggle keeps a duplicate-free list duplicate-free. */
  lemma ToggleKeepsNoDuplicates(list: seq<int>, x: int)
    requires NoDuplicates(list)
    ensures NoDuplicates(Toggle(list, x))
  {
    if x in list {
      RemoveKeepsNoDuplicates(list, x);
    }
  }

  /** Removing an id the list lacks from its end undoes appending it. */
  lemma {:induction false} RemoveAppended(list: seq<int>, x: int)
    requires x !in list
    ensures Remove(list + [x], x) == list
  {
    if |list| > 0 {
      assert (list + [x])[1..] == list[1..] + [x];
      RemoveAppended(list[1..], x);
      assert [list[0]] + list[1..] == list;
    }
  }

  /** Toggling the same id twice restores membership of every id; when the id
      was absent it restores the list itself. */
  lemma ToggleTwice(list: seq<int>, x: int)
    ensures forall y :: y in Toggle(Toggle(list, x), x) <==> y in list
    ensures x !in list ==> Toggle(Toggle(list, x), x) == list
  {
    if x !in list {
      RemoveAppended(list, x);
    }
  }

  // ---------------------------------------------------------------------------
  // Chat
  // ---------------------------------------------------------------------------

  datatype Sender = User | Assistant

  datatype ChatMessage = ChatMessage(id: int, sender: Sender, text: string, time: string)

  const Greeting := "Hello! I'm your CardiacTek AI assistant. How can I help you today?"
  const ReplyText := "Based on your symptoms, I recommend consulting with your doctor. In the meantime, try to rest and monitor your condition. Would you like me to schedule an appointment?"

  class CheckerScreen {
    var selectedSymptoms: seq<int>
    var bookmarkedArticles: seq<int>
    var chatMessages: seq<ChatMessage>
    var inputText: string
    /** The ids the scheduled assistant replies captured, in the order their
        one-second timers fire. */
    var pendingReplies: seq<int>

    constructor ()
      ensures selectedSymptoms == [] && bookmarkedArticles == []
      ensures chatMessages == [ChatMessage(1, Assistant, Greeting, "10:30 AM")]
      ensures inputText == "" && pendingReplies == []
    {
      selectedSymptoms, bookmarkedArticles := [], [];
      chatMessages := [ChatMessage(1, Assistant, Greeting, "10:30 AM")];
      inputText, pendingReplies := "", [];
    }

    /** toggleSymptom */
    method ToggleSymptom(symptomId: int)
      modifies this
      ensures selectedSymptoms == Toggle(old(selectedSymptoms), symptomId)
      ensures bookmarkedArticles == old(bookmarkedArticles) && chatMessages == old(chatMessages)
      ensures inputText == old(inputText) && pendingReplies == old(pendingReplies)
    {
      selectedSymptoms := Toggle(selectedSymptoms, symptomId);
    }

    /** toggleBookmark */
    method ToggleBookmark(articleId: int)
      modifies this
      ensures bookmarkedArticles == Toggle(old(bookmarkedArticles), articleId)
      ensures selectedSymptoms == old(selectedSymptoms) && chatMessages == old(chatMessages)
      ensures inputText == old(inputText) && pendingReplies == old(pendingReplies)
    {
      bookmarkedArticles := Toggle(bookmarkedArticles, articleId);
    }

    /** Typing into the input (or tapping a quick question). */
    method SetInputText(text: string)
      modifies this
      ensures inputText == text
      ensures selectedSymptoms == old(selectedSymptoms) && bookmarkedArticles == old(bookmarkedArticles)
      ensures chatMessages == old(chatMessages) && pendingReplies == old(pendingReplies)
    {
      inputText := text;
    }

    /** handleSendMessage: blank input does nothing; otherwise the untrimmed text
        is appended as a user message with id length + 1, the input is cleared
        and a reply with id length + 2 is scheduled. `now` is the formatted
        clock time. */
    method SendMessage(now: string) returns (sent: bool)
      modifies this
      ensures sent <==> !IsBlank(old(inputText))
      ensures sent ==> && chatMessages == old(chatMessages) + [ChatMessage(|old(chatMessages)| + 1, User, old(inputText), now)]
                       && inputText == ""
                       && pendingReplies == old(pendingReplies) + [|old(chatMessages)| + 2]
      ensures !sent ==> chatMessages == old(chatMessages) && inputText == old(inputText) && pendingReplies == old(pendingReplies)
      ensures selectedSymptoms == old(selectedSymptoms) && bookmarkedArticles == old(bookmarkedArticles)
    {
      sent := !IsBlank(inputText);
      if sent {
        var n := |chatMessages|;
        chatMessages := chatMessages + [ChatMessage(n + 1, User, inputText, now)];
        inputText := "";
        pendingReplies := pendingReplies + [n + 2];
      }
    }

    /** The earliest scheduled reply fires: the assistant message with the id
        captured at send time is appended to the current chat. */
    method DeliverReply(now: string) returns (delivered: bool)
      modifies this
      ensures delivered <==> old(pendingReplies) != []
      ensures delivered ==> && chatMessages == old(chatMessages) + [ChatMessage(old(pendingReplies)[0], Assistant, ReplyText, now)]
                            && pendingReplies == old(pendingReplies)[1..]
      ensures !delivered ==> chatMessages == old(chatMessages) && pendingReplies == old(pendingReplies)
      ensures inputText == old(inputText)
      ensures selectedSymptoms == old(selectedSymptoms) && bookmarkedArticles == old(bookmarkedArticles)
    {
      delivered := pendingReplies != [];
      if delivered {
        chatMessages := chatMessages + [ChatMessage(pendingReplies[0], Assistant, ReplyText, now)];
        pendingReplies := pendingReplies[1..];
      }
    }

    /** analyzeSymptoms: the analysis is shown only when a symptom is selected. */
    method AnalyzeSymptoms() returns (analyzed: bool)
      ensures analyzed <==> selectedSymptoms != []
    {
      analyzed := |selectedSymptoms| != 0;
    }
  }

  /** A send followed by its reply appends exactly the user message and the
      assistant message with ids length + 1 and length + 2. */
  method SendThenReply()
  {
    var screen := new CheckerScreen();
    screen.SetInputText("  What causes chest pain?");
    assert !IsBlank(screen.inputText) by { assert !IsWhitespace(screen.inputText[2]); }
    var sent := screen.SendMessage("10:31 AM");
    var delivered := screen.DeliverReply("10:31 AM");
    assert screen.chatMessages[1] == ChatMessage(2, User, "  What causes chest pain?", "10:31 AM");
    assert screen.chatMessages[2] == ChatMessage(3, Assistant, ReplyText, "10:31 AM");
    var blank := screen.SendMessage("10:32 AM");
    assert !blank && |screen.chatMessages| == 3;
  }

  /** Two sends within the reply delay: the first reply reuses the id of the
      second user message, since ids come from the list length at send time. */
  method TwoSendsBeforeReply()
  {
    var screen := new CheckerScreen();
    screen.SetInputText("a");
    assert !IsBlank(screen.inputText) by { assert !IsWhitespace(screen.inputText[0]); }
    var first := screen.SendMessage("10:31 AM");
    screen.SetInputText("b");
    assert !IsBlank(screen.inputText) by { assert !IsWhitespace(screen.inputText[0]); }
    var second := screen.SendMessage("10:31 AM");
    var delivered := screen.DeliverReply("10:31 AM");
    assert screen.chatMessages[2].id == 3 && screen.chatMessages[3].id == 3;
  }
}
