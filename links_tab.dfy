/** The merchant's list of crawled web links (components/documents/LinksTab.tsx). */
module LinksTab {
  import opened Wrappers
  import opened Text
  import opened Lists
  import opened Notices

  const AddedNotice: Notice := Notice("تمت إضافة الرابط", Success)
  const DeletedNotice: Notice := Notice("تم حذف الرابط", Info)

  datatype LinkItem = LinkItem(id: string, url: string, status: string, errorMessage: Option<string>, createdAt: string)

  function LinkId(l: LinkItem): string {
    l.id
  }

  /** What `handleAdd` posts: nothing for a blank field, otherwise a
      one-element list holding the field as typed (untrimmed). */
  function AddRequest(newLink: string): (r: Option<seq<string>>)
    ensures r.None? <==> AllWhitespace(newLink)
    ensures r.Some? ==> r.value == [newLink] && Trim(newLink) != []
  {
    if IsBlank(newLink) then None else Some([newLink])
  }

  class LinksPanel {
    var links: seq<LinkItem>
    var loading: bool
    var newLink: string
    var notices: seq<Notice>

    constructor ()
      ensures links == [] && loading && newLink == "" && notices == []
    {
      links := [];
      loading := true;
      newLink := "";
      notices := [];
    }

    /** The first fetch settled: its list, if it came, replaces the links;
        loading ends either way. */
    method InitialFetchSettled(fetched: Option<seq<LinkItem>>)
      modifies this
      ensures links == fetched.GetOr(old(links)) && !loading
      ensures newLink == old(newLink) && notices == old(notices)
    {
      if fetched.Some? {
        links := fetched.value;
      }
      loading := false;
    }

    /** The refetch issued after an add resolved with this list. */
    method Refetched(list: seq<LinkItem>)
      modifies this
      ensures links == list && loading == old(loading)
      ensures newLink == old(newLink) && notices == old(notices)
    {
      links := list;
    }

    /** While loading only a progress bar is rendered, so the field, the
        add button and the delete buttons below exist only once loading
        has ended; before that their handlers cannot run and change nothing. */
    method EditLink(value: string)
      modifies this
      ensures newLink == if old(loading) then old(newLink) else value
      ensures links == old(links) && loading == old(loading) && notices == old(notices)
    {
      if !loading {
        newLink := value;
      }
    }

    /** `handleAdd`: posts `AddRequest` of the field; once the post succeeds
        the field is cleared and success is announced. */
    method HandleAdd(posted: bool) returns (request: Option<seq<string>>)
      modifies this
      ensures old(loading) ==> request.None?
      ensures !old(loading) ==> request == AddRequest(old(newLink))
      ensures request.Some? && posted ==> newLink == "" && notices == old(notices) + [AddedNotice]
      ensures request.None? || !posted ==> newLink == old(newLink) && notices == old(notices)
      ensures links == old(links) && loading == old(loading)
    {
      var typed := newLink;
      var r := AddRequest(typed);
      if loading {
        request := None;
      } else {
        request := r;
        if r.Some? && posted {
          newLink := "";
          notices := notices + [AddedNotice];
        }
      }
      assert typed == old(newLink);
    }

    /** `handleDelete`: once the server confirms, exactly the links with that
        id go and the rest keep their order; a failed request changes nothing. */
    method HandleDelete(id: string, deleted: bool)
      modifies this
      ensures !old(loading) && deleted ==>
        links == RemoveById(old(links), LinkId, id) && notices == old(notices) + [DeletedNotice]
      ensures old(loading) || !deleted ==> links == old(links) && notices == old(notices)
      ensures loading == old(loading) && newLink == old(newLink)
    {
      if !loading && deleted {
        links := RemoveById(links, LinkId, id);
        notices := notices + [DeletedNotice];
      }
    }
  }
}
