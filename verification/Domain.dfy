/** The entities of the IRC server (services/irc/prd/domain). The server owns
    clients and channels by value, inside std::map; entries never alias, so an
    entity is a value here and an update replaces the map entry. */
module Domain {
  import opened Strings

  /** A parsed line. */
  datatype Message = Message(prefix: string, command: string, params: seq<string>)

  /** Everything of a client except its two byte buffers. */
  datatype Client = Client(
    fd: int,
    hostname: string,
    nickname: string,
    username: string,
    realname: string,
    passwordAccepted: bool,
    userReceived: bool,
    registered: bool,
    joined: set<string>)
  {
    predicate HasNickname() { nickname != "" }

    /** PASS accepted, NICK set and USER received. */
    predicate Complete() { passwordAccepted && HasNickname() && userReceived }
  }

  function NewClient(fd: int, hostname: string): Client {
    Client(fd, hostname, "", "", "", false, false, false, {})
  }

  datatype Channel = Channel(
    name: string,
    keyName: string,
    topic: string,
    members: set<int>,
    operators: set<int>,
    invited: set<int>,
    inviteOnly: bool,
    topicRestricted: bool,
    keyEnabled: bool,
    channelKey: string,
    limitEnabled: bool,
    userLimit: nat)
  {
    function AddMember(fd: int): Channel { this.(members := members + {fd}) }

    /** Leaving also ends operatorship. */
    function RemoveMember(fd: int): Channel {
      this.(members := members - {fd}, operators := operators - {fd})
    }

    /** Only a member can become operator. */
    function AddOperator(fd: int): Channel {
      if fd in members then this.(operators := operators + {fd}) else this
    }

    function RemoveOperator(fd: int): Channel { this.(operators := operators - {fd}) }

    function AddInvite(fd: int): Channel { this.(invited := invited + {fd}) }

    function RemoveInvite(fd: int): Channel { this.(invited := invited - {fd}) }

    function SetKey(key: string): Channel { this.(channelKey := key, keyEnabled := true) }

    function ClearKey(): Channel { this.(channelKey := "", keyEnabled := false) }

    predicate MatchesKey(key: string) { !keyEnabled || channelKey == key }

    function SetLimit(limit: nat): Channel { this.(userLimit := limit, limitEnabled := true) }

    function ClearLimit(): Channel { this.(userLimit := 0, limitEnabled := false) }

    predicate IsFull() { limitEnabled && |members| >= userLimit }

    /** The letters of the mode query, in the order i, t, k, l. */
    function ModeString(): string {
      "+" + (if inviteOnly then "i" else "") + (if topicRestricted then "t" else "")
          + (if keyEnabled then "k" else "") + (if limitEnabled then "l" else "")
    }

    function ModeParameters(): seq<string> {
      (if keyEnabled then [channelKey] else [])
      + (if limitEnabled then [Decimal(userLimit)] else [])
    }
  }

  /** A new channel has topic protection on and nobody in it. */
  function NewChannel(name: string, keyName: string): Channel {
    Channel(name, keyName, "", {}, {}, {}, false, true, false, "", false, 0)
  }

  /** The relational state of the server: who is connected, which channels
      exist, who is in them, and the folded-nickname index. */
  datatype Core = Core(
    clients: map<int, Client>,
    channels: map<string, Channel>,
    nickToFd: map<string, int>)

  /** Configuration fixed at start-up. `text` stands for the English wording of
      every reply code: each result holds for any wording. */
  datatype Config = Config(serverName: string, password: string, listenFd: int, text: int -> string)
}
