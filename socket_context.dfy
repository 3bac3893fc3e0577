/**
 * The socket context shared by the front end: whether a connection is opened at all, the
 * connection flag, and the list of online users kept from the collaboration events.
 */
module SocketContext {
  import opened Wrappers
  import Roster

  /** `token && user`: a socket is opened only for a signed-in user with a token. */
  predicate ShouldConnect(token: Option<string>, signedIn: bool) {
    token.Some? && token.value != "" && signedIn
  }

  class Connection {
    var socketOpen: bool
    var isConnected: bool
    var onlineUsers: seq<Roster.Member>

    /** The flag is up only while a socket is open. */
    predicate Valid()
      reads this
    {
      isConnected ==> socketOpen
    }

    constructor ()
      ensures !socketOpen && !isConnected && onlineUsers == []
      ensures Valid()
    {
      socketOpen := false;
      isConnected := false;
      onlineUsers := [];
    }

    /** The effect that runs whenever the token or the user changes: its cleanup closes the
     *  socket the previous run opened, and closing a connected socket fires its `disconnect`
     *  handler at once, which lowers the flag; a new socket is opened only for a signed-in
     *  user, and starts out not connected. */
    method Start(token: Option<string>, signedIn: bool)
      modifies this
      ensures socketOpen == ShouldConnect(token, signedIn)
      ensures isConnected == (old(isConnected) && !old(socketOpen))
      ensures onlineUsers == old(onlineUsers)
      ensures old(Valid()) ==> !isConnected && Valid()
    {
      if socketOpen {
        OnDisconnect();
      }
      socketOpen := ShouldConnect(token, signedIn);
    }

    /** `connect`, which only an open socket fires. */
    method OnConnect()
      requires socketOpen
      modifies this
      ensures isConnected && socketOpen == old(socketOpen) && onlineUsers == old(onlineUsers)
      ensures Valid()
    {
      isConnected := true;
    }

    /** `disconnect`, and `connect_error` alike. */
    method OnDisconnect()
      modifies this
      ensures !isConnected && socketOpen == old(socketOpen) && onlineUsers == old(onlineUsers)
      ensures Valid()
    {
      isConnected := false;
    }

    /** `onlineUsers`: the list is replaced wholesale. */
    method OnOnlineUsers(users: seq<Roster.Member>)
      modifies this
      ensures onlineUsers == users && isConnected == old(isConnected) && socketOpen == old(socketOpen)
    {
      onlineUsers := users;
    }

    /** `userJoined`: appended, with no check for an entry already present. */
    method OnUserJoined(m: Roster.Member)
      modifies this
      ensures onlineUsers == old(onlineUsers) + [m]
      ensures multiset(onlineUsers)[m] == multiset(old(onlineUsers))[m] + 1
      ensures isConnected == old(isConnected) && socketOpen == old(socketOpen)
    {
      onlineUsers := onlineUsers + [m];
    }

    /** `userLeft`: every entry with that id is removed. */
    method OnUserLeft(id: string)
      modifies this
      ensures onlineUsers == Roster.WithoutId(old(onlineUsers), id)
      ensures forall m :: m in onlineUsers ==> m.id != id
      ensures isConnected == old(isConnected) && socketOpen == old(socketOpen)
    {
      onlineUsers := Roster.WithoutId(onlineUsers, id);
    }
  }
}
