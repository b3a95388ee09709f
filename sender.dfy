/**
 * The UDP test client's console commands and host configuration: a command
 * word picks what the rest of the line means, and the four address fields
 * keep two `ip:port` host strings in step with them.
 */
module Sender {
  import opened Bytes
  import opened Buffers
  import opened Packets

  datatype CommandInput =
    | LocalIp(ip: string)
    | LocalPort(port: string)
    | RemoteIp(ip: string)
    | RemotePort(port: string)
    | StartHost
    | ConnectRemote
    | Message(text: string)
    | Unknown(data: string)
    | Error(description: string)

  /** The command words the client knows. */
  const Flags: seq<string> := ["-local", "-lport", "-remote", "-rport", "-lstart", "-rconnect", "-msg"]

  /** `identify_command`: the command word picks the variant; any other word is Unknown, keeping the data. */
  function IdentifyCommand(command: string, data: string): (c: CommandInput)
    ensures c.Unknown? <==> command !in Flags
    ensures c.Unknown? ==> c.data == data
    ensures !c.Error?
    ensures c.LocalIp? || c.LocalPort? || c.RemoteIp? || c.RemotePort? || c.Message? ==> Payload(c) == data
  {
    match command
    case "-local" => LocalIp(data)
    case "-lport" => LocalPort(data)
    case "-remote" => RemoteIp(data)
    case "-rport" => RemotePort(data)
    case "-lstart" => StartHost
    case "-rconnect" => ConnectRemote
    case "-msg" => Message(data)
    case _ => Unknown(data)
  }

  /** The text a command carries; the two bare commands carry none. */
  function Payload(c: CommandInput): string
  {
    match c
    case LocalIp(ip) => ip
    case LocalPort(port) => port
    case RemoteIp(ip) => ip
    case RemotePort(port) => port
    case Message(text) => text
    case Unknown(data) => data
    case Error(description) => description
    case _ => ""
  }

  /** The command word that yields each known command. */
  function Flag(c: CommandInput): (f: string)
    requires !c.Unknown? && !c.Error?
    ensures f in Flags
  {
    match c
    case LocalIp(_) => "-local"
    case LocalPort(_) => "-lport"
    case RemoteIp(_) => "-remote"
    case RemotePort(_) => "-rport"
    case StartHost => "-lstart"
    case ConnectRemote => "-rconnect"
    case Message(_) => "-msg"
  }

  /** Every known command is recovered from its word and its payload, whatever follows a bare command. */
  lemma IdentifyFlag(c: CommandInput, rest: string)
    requires !c.Unknown? && !c.Error?
    ensures IdentifyCommand(Flag(c), if c.StartHost? || c.ConnectRemote? then rest else Payload(c)) == c
  {
  }

  /** `set_host_parameters`: the ip, a colon, the port. */
  function SetHostParameters(ip: string, port: string): (h: string)
    ensures |h| == |ip| + 1 + |port|
    ensures h[..|ip|] == ip && h[|ip|] == ':' && h[|ip| + 1..] == port
  {
    ip + [':'] + port
  }

  /** A host string names its ip and port exactly, as long as the port has no colon. */
  lemma HostDeterminesAddress(ip: string, port: string, ip': string, port': string)
    requires ':' !in port && ':' !in port'
    requires SetHostParameters(ip, port) == SetHostParameters(ip', port')
    ensures ip == ip' && port == port'
  {
    var h := SetHostParameters(ip, port);
    if |port| < |port'| {
      assert false;
    } else if |port'| < |port| {
      assert false;
    }
    assert ip == h[..|ip|] == ip';
  }

  /** `HostConfig`: the local and remote address fields and the host strings built from them. */
  class HostConfig {
    var localIp: string
    var localPort: string
    var localHost: string
    var remoteIp: string
    var remotePort: string
    var remoteHost: string

    /** Each host string is its ip and port. */
    ghost predicate Valid()
      reads this
    {
      localHost == SetHostParameters(localIp, localPort) &&
      remoteHost == SetHostParameters(remoteIp, remotePort)
    }

    /** The configuration the client starts with: local 127.0.0.1:40404, remote 127.0.0.1:12345. */
    constructor()
      ensures Valid()
      ensures localIp == "127.0.0.1" && localPort == "40404" && remoteIp == "127.0.0.1" && remotePort == "12345"
      ensures localHost == "127.0.0.1:40404" && remoteHost == "127.0.0.1:12345"
    {
      localIp := "127.0.0.1";
      localPort := "40404";
      remoteIp := "127.0.0.1";
      remotePort := "12345";
      localHost := SetHostParameters("127.0.0.1", "40404");
      remoteHost := SetHostParameters("127.0.0.1", "12345");
    }

    /**
     * `build_config`: a local field update rebuilds the local host from the
     * current ip and port and leaves the remote side alone, and the other
     * way round; any other command changes nothing.
     */
    method BuildConfig(cmd: CommandInput)
      requires Valid()
      modifies this
      ensures Valid()
      ensures localIp == (if cmd.LocalIp? then cmd.ip else old(localIp))
      ensures localPort == (if cmd.LocalPort? then cmd.port else old(localPort))
      ensures remoteIp == (if cmd.RemoteIp? then cmd.ip else old(remoteIp))
      ensures remotePort == (if cmd.RemotePort? then cmd.port else old(remotePort))
      ensures !(cmd.RemoteIp? || cmd.RemotePort?) ==> remoteHost == old(remoteHost)
      ensures !(cmd.LocalIp? || cmd.LocalPort?) ==> localHost == old(localHost)
    {
      match cmd {
        case LocalIp(ip) =>
          localIp := ip;
          localHost := SetHostParameters(localIp, localPort);
        case LocalPort(port) =>
          localPort := port;
          localHost := SetHostParameters(localIp, localPort);
        case RemoteIp(ip) =>
          remoteIp := ip;
          remoteHost := SetHostParameters(remoteIp, remotePort);
        case RemotePort(port) =>
          remotePort := port;
          remoteHost := SetHostParameters(remoteIp, remotePort);
        case _ =>
      }
    }
  }

  /** Setting the local port from the console moves the local host and nothing else. */
  method ConsolePortChange() returns (local: string, remote: string)
    ensures local == "127.0.0.1:5000" && remote == "127.0.0.1:12345"
  {
    var config := new HostConfig();
    config.BuildConfig(LocalPort("5000"));
    config.BuildConfig(StartHost);
    local := config.localHost;
    remote := config.remoteHost;
  }

  /** The bytes the client sends: a Login packet for "lorem" / "ipsum". */
  const LoginMessage: seq<byte> := [0, 5, 0, 108, 111, 114, 101, 109, 5, 0, 105, 112, 115, 117, 109]

  /** The bytes of the two strings. */
  lemma LoremIpsumBytes()
    ensures Ascii("lorem") == [108, 111, 114, 101, 109]
    ensures Ascii("ipsum") == [105, 112, 115, 117, 109]
  {
  }

  /** The message bytes as a tag and two length-prefixed strings. */
  lemma LoginMessageLayout(u: seq<byte>, w: seq<byte>)
    requires u == [108, 111, 114, 101, 109] && w == [105, 112, 115, 117, 109]
    ensures LoginMessage == Encode(Login(u, w))
  {
    LoremStringBytes();
    IpsumStringBytes();
    assert Encode(Login(u, w)) == [0] + StringBytes(u) + StringBytes(w);
  }

  lemma LoremStringBytes()
    ensures StringBytes([108, 111, 114, 101, 109]) == [5, 0, 108, 111, 114, 101, 109]
  {
    ShortStringBytes([108, 111, 114, 101, 109]);
  }

  lemma IpsumStringBytes()
    ensures StringBytes([105, 112, 115, 117, 109]) == [5, 0, 105, 112, 115, 117, 109]
  {
    ShortStringBytes([105, 112, 115, 117, 109]);
  }

  /** A string shorter than 256 bytes has the length prefix [length, 0]. */
  lemma ShortStringBytes(s: seq<byte>)
    requires |s| < 256
    ensures StringBytes(s) == [|s| as byte, 0] + s
  {
    assert Pow256(1) == 256;
    assert LE(|s| / 256, 1) == [0] by {
      assert |s| / 256 == 0;
      assert LE(0, 0) == [];
    }
  }

  /** The message is the encoding of that Login, and it decodes back to it. */
  lemma LoginMessageIsLogin()
    ensures LoginMessage == Encode(Login(Ascii("lorem"), Ascii("ipsum")))
    ensures Decode(LoginMessage) == Decoded(Login(Ascii("lorem"), Ascii("ipsum")), 15)
  {
    LoremIpsumBytes();
    var p := Login(Ascii("lorem"), Ascii("ipsum"));
    LoginMessageLayout(p.username, p.password);
    DecodeEncode(p, []);
    assert Encode(p) + [] == LoginMessage;
  }
}
