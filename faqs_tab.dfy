/** The merchant's question-and-answer list (components/documents/FaqsTab.tsx). */
module FaqsTab {
  import opened Wrappers
  import opened Text
  import opened Lists
  import opened Notices

  const AddedNotice: Notice := Notice("تمت إضافة السؤال", Success)
  const DeletedNotice: Notice := Notice("تم حذف السؤال", Info)

  datatype Faq = Faq(id: string, question: string, answer: string, createdAt: Option<string>)

  function FaqId(f: Faq): string {
    f.id
  }

  /** One entry of the body `addFaqs` posts. */
  datatype FaqDraft = FaqDraft(question: string, answer: string)

  /** What `handleAdd` posts: nothing when either field is blank after
      trimming, otherwise exactly one entry holding both fields as typed
      (untrimmed). */
  function AddRequest(question: string, answer: string): (r: Option<seq<FaqDraft>>)
    ensures r.None? <==> IsBlank(question) || IsBlank(answer)
    ensures r.Some? ==>
      |r.value| == 1 && r.value[0].question == question && r.value[0].answer == answer
  {
    if IsBlank(question) || IsBlank(answer) then None
    else Some([FaqDraft(question, answer)])
  }

  /** Every entry that is posted has a question and an answer with visible
      text, even though the text is sent untrimmed. */
  lemma AddRequestNotBlank(question: string, answer: string)
    requires AddRequest(question, answer).Some?
    ensures forall d :: d in AddRequest(question, answer).value ==>
      Trim(d.question) != [] && Trim(d.answer) != []
      && !AllWhitespace(d.question) && !AllWhitespace(d.answer)
  {
  }

  class FaqsPanel {
    var faqs: seq<Faq>
    var loading: bool
    var newQuestion: string
    var newAnswer: string
    var notices: seq<Notice>

    constructor ()
      ensures faqs == [] && loading && newQuestion == "" && newAnswer == "" && notices == []
    {
      faqs := [];
      loading := true;
      newQuestion := "";
      newAnswer := "";
      notices := [];
    }

    /** The first fetch settled: its list, if it came, replaces the entries;
        loading ends either way. */
    method InitialFetchSettled(fetched: Option<seq<Faq>>)
      modifies this
      ensures faqs == fetched.GetOr(old(faqs)) && !loading
      ensures newQuestion == old(newQuestion) && newAnswer == old(newAnswer) && notices == old(notices)
    {
      if fetched.Some? {
        faqs := fetched.value;
      }
      loading := false;
    }

    /** The refetch issued after an add resolved with this list. */
    method Refetched(list: seq<Faq>)
      modifies this
      ensures faqs == list && loading == old(loading)
      ensures newQuestion == old(newQuestion) && newAnswer == old(newAnswer) && notices == old(notices)
    {
      faqs := list;
    }

    /** While loading only a progress bar is rendered, so the fields, the
        add button and the delete buttons below exist only once loading
        has ended; before that their handlers cannot run and change nothing. */
    method EditQuestion(value: string)
      modifies this
      ensures newQuestion == if old(loading) then old(newQuestion) else value
      ensures faqs == old(faqs) && loading == old(loading) && newAnswer == old(newAnswer) && notices == old(notices)
    {
      if !loading {
        newQuestion := value;
      }
    }

    method EditAnswer(value: string)
      modifies this
      ensures newAnswer == if old(loading) then old(newAnswer) else value
      ensures faqs == old(faqs) && loading == old(loading) && newQuestion == old(newQuestion) && notices == old(notices)
    {
      if !loading {
        newAnswer := value;
      }
    }

    /** `handleAdd`: posts `AddRequest` of the two fields. Once the post
        succeeds (`posted`) both fields are cleared and success is announced;
        a blank field or a failed post leaves everything as it was. */
    method HandleAdd(posted: bool) returns (request: Option<seq<FaqDraft>>)
      modifies this
      ensures old(loading) ==> request.None?
      ensures !old(loading) ==> request == AddRequest(old(newQuestion), old(newAnswer))
      ensures request.Some? && posted ==>
        newQuestion == "" && newAnswer == "" && notices == old(notices) + [AddedNotice]
      ensures request.None? || !posted ==>
        newQuestion == old(newQuestion) && newAnswer == old(newAnswer) && notices == old(notices)
      ensures faqs == old(faqs) && loading == old(loading)
    {
      var question, answer := newQuestion, newAnswer;
      if loading {
        request := None;
      } else {
        request := AddRequest(question, answer);
        if request.Some? && posted {
          newQuestion := "";
          newAnswer := "";
          notices := notices + [AddedNotice];
        }
      }
      assert question == old(newQuestion) && answer == old(newAnswer);
    }

    /** `handleDelete`: once the server confirms, exactly the entries with that
        id go and the rest keep their order; a failed request changes nothing. */
    method HandleDelete(id: string, deleted: bool)
      modifies this
      ensures !old(loading) && deleted ==>
        faqs == RemoveById(old(faqs), FaqId, id) && notices == old(notices) + [DeletedNotice]
      ensures old(loading) || !deleted ==> faqs == old(faqs) && notices == old(notices)
      ensures loading == old(loading) && newQuestion == old(newQuestion) && newAnswer == old(newAnswer)
    {
      if !loading && deleted {
        faqs := RemoveById(faqs, FaqId, id);
        notices := notices + [DeletedNotice];
      }
    }
  }
}
