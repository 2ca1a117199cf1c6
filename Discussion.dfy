/**
 * The "Hot Discussions" panel: a list of threads, one of which can be opened
 * in a modal, and a reply box whose send action only clears the input.
 */
module Discussion {
  import opened Wrappers
  import opened JsString
  import Initials

  datatype Post = Post(user: string, text: string, time: string)

  datatype Thread = Thread(rank: int, title: string, author: string, replies: int, messages: seq<Post>)

  /** The avatar text of a thread's author in the open modal. */
  function AuthorInitials(t: Thread): (r: string)
    ensures r == Initials.WordStarts(t.author, true)
  {
    Initials.InitialsAreWordStarts(t.author);
    Initials.Of(t.author)
  }

  /** The avatar text beside each message in the open modal. */
  function PostInitials(p: Post): (r: string)
    ensures r == Initials.WordStarts(p.user, true)
  {
    Initials.InitialsAreWordStarts(p.user);
    Initials.Of(p.user)
  }

  /** The panel's state. The thread list is fixed for the panel's lifetime. */
  class DiscussionPanel {
    const threads: seq<Thread>
    var selectedDiscussion: Option<Thread>
    var newMessage: string

    constructor (threads: seq<Thread>)
      ensures this.threads == threads
      ensures selectedDiscussion == None && newMessage == ""
    {
      this.threads := threads;
      selectedDiscussion := None;
      newMessage := "";
    }

    /** A click on the row at `index` opens that thread. */
    method SelectRow(index: nat)
      requires index < |threads|
      modifies this
      ensures selectedDiscussion == Some(threads[index])
      ensures newMessage == old(newMessage)
    {
      selectedDiscussion := Some(threads[index]);
    }

    /** The modal's backdrop and its X button both close it. */
    method Close()
      modifies this
      ensures selectedDiscussion == None
      ensures newMessage == old(newMessage)
    {
      selectedDiscussion := None;
    }

    /** The reply box's `onChange`. */
    method SetNewMessage(text: string)
      modifies this
      ensures newMessage == text && selectedDiscussion == old(selectedDiscussion)
    {
      newMessage := text;
    }

    /**
     * `handleSendMessage`: a blank input is kept as it is; otherwise the input
     * is cleared. The thread data is never changed (the message would only be
     * logged).
     */
    method SendMessage()
      modifies this
      ensures !HasText(old(newMessage)) ==> newMessage == old(newMessage)
      ensures HasText(old(newMessage)) ==> newMessage == ""
      ensures selectedDiscussion == old(selectedDiscussion)
    {
      if HasText(newMessage) {
        newMessage := "";
      }
    }
  }
}
