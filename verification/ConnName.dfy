/** Connection names: name_ + "-ip:port#id", the middle printed into a 64-byte buffer
    (src/TcpServer.cc, src/InetAddress.cc). */
module ConnName {

  const INT_MAX: nat := 2147483647
  const NAME_BUF: nat := 64

  function DigitChar(d: nat): char
    requires d < 10
  {
    "0123456789"[d]
  }

  /** printf's %d of a nonnegative number. */
  function Decimal(n: nat): (s: string)
    ensures |s| > 0
  {
    if n < 10 then [DigitChar(n)] else Decimal(n / 10) + [DigitChar(n % 10)]
  }

  function DigitValue(c: char): nat { if '0' <= c <= '9' then (c as int) - ('0' as int) else 0 }

  function Parse(s: string): nat {
    if s == "" then 0 else 10 * Parse(s[..|s| - 1]) + DigitValue(s[|s| - 1])
  }

  lemma {:induction false} ParseInvertsDecimal(n: nat)
    ensures Parse(Decimal(n)) == n
  {
    var s := Decimal(n);
    if n >= 10 {
      ParseInvertsDecimal(n / 10);
      assert s[..|s| - 1] == Decimal(n / 10);
    } else {
      assert s[..0] == "";
    }
  }

  function Pow10(k: nat): nat { if k == 0 then 1 else 10 * Pow10(k - 1) }

  lemma {:induction false} DecimalLength(n: nat, k: nat)
    requires k > 0 && n < Pow10(k)
    ensures |Decimal(n)| <= k
  {
    if n >= 10 {
      assert k > 1;
      DecimalLength(n / 10, k - 1);
    }
  }

  /** snprintf into a buffer of `size` bytes keeps at most size - 1 characters. */
  function Truncate(s: string, size: nat): string
    requires size > 0
  {
    if |s| < size then s else s[..size - 1]
  }

  function Name(server: string, ipPort: string, id: nat): string {
    server + Truncate("-" + ipPort + "#" + Decimal(id), NAME_BUF)
  }

  /** With room in the buffer a name is the server's own name, the address and the id, all whole. */
  lemma NameIsWhole(server: string, ipPort: string, id: nat)
    requires |ipPort| <= 51 && id <= INT_MAX
    ensures Name(server, ipPort, id) == server + "-" + ipPort + "#" + Decimal(id)
  {
    assert Pow10(5) == 100000 && Pow10(10) == 100000 * Pow10(5);
    DecimalLength(id, 10);
    var rest := "-" + ipPort + "#" + Decimal(id);
    assert server + rest == server + "-" + ipPort + "#" + Decimal(id);
  }

  lemma DecimalsForExample()
    ensures Decimal(0) == "0" && Decimal(1) == "1" && Decimal(127) == "127" && Decimal(8000) == "8000"
  {
    assert Decimal(12) == Decimal(1) + "2" == "12";
    assert Decimal(127) == Decimal(12) + "7";
    assert Decimal(80) == Decimal(8) + "0" == "80";
    assert Decimal(800) == Decimal(80) + "0" == "800";
    assert Decimal(8000) == Decimal(800) + "0";
  }

  lemma NameForExample()
    ensures IpPort(127, 0, 0, 1, 8000) == "127.0.0.1:8000"
    ensures Name("EchoServer", "127.0.0.1:8000", 1) == "EchoServer-127.0.0.1:8000#1"
  {
    DecimalsForExample();
    NameIsWhole("EchoServer", "127.0.0.1:8000", 1);
    hide Decimal, Name;
  }

  /** `toIpPort` of an IPv4 address. */
  function IpPort(a: nat, b: nat, c: nat, d: nat, port: nat): string {
    Decimal(a) + "." + Decimal(b) + "." + Decimal(c) + "." + Decimal(d) + ":" + Decimal(port)
  }

  lemma IpPortLength(a: nat, b: nat, c: nat, d: nat, port: nat)
    requires a < 256 && b < 256 && c < 256 && d < 256 && port < 65536
    ensures |IpPort(a, b, c, d, port)| <= 21
  {
    assert Pow10(3) == 1000 && Pow10(5) == 100000;
    DecimalLength(a, 3);
    DecimalLength(b, 3);
    DecimalLength(c, 3);
    DecimalLength(d, 3);
    DecimalLength(port, 5);
  }

  lemma DistinctIdsDistinctNames(server: string, ipPort: string, i: nat, j: nat)
    requires |ipPort| <= 51 && i <= INT_MAX && j <= INT_MAX && i != j
    ensures Name(server, ipPort, i) != Name(server, ipPort, j)
  {
    assert Pow10(5) == 100000 && Pow10(10) == 100000 * Pow10(5);
    DecimalLength(i, 10);
    DecimalLength(j, 10);
    ParseInvertsDecimal(i);
    ParseInvertsDecimal(j);
    var pre := "-" + ipPort + "#";
    assert (pre + Decimal(i))[|pre|..] == Decimal(i) && (pre + Decimal(j))[|pre|..] == Decimal(j);
    assert Name(server, ipPort, i)[|server|..] == pre + Decimal(i);
    assert Name(server, ipPort, j)[|server|..] == pre + Decimal(j);
  }

  lemma LongAddressesCollide(server: string, ipPort: string)
    requires |ipPort| > 51
    ensures Name(server, ipPort, 1000000000) == Name(server, ipPort, 1000000001)
  {
    var pre, shared := "-" + ipPort + "#", Decimal(100000000);
    NineDigits();
    assert Decimal(1000000000) == shared + [DigitChar(0)];
    assert Decimal(1000000001) == shared + [DigitChar(1)];
    assert (pre + Decimal(1000000000))[..63] == (pre + shared)[..63];
    assert (pre + Decimal(1000000001))[..63] == (pre + shared)[..63];
  }

  lemma NineDigits()
    ensures |Decimal(100000000)| == 9
  {
    assert |Decimal(1000)| == 4 && |Decimal(10000)| == 5;
    assert |Decimal(100000)| == 6 && |Decimal(1000000)| == 7 && |Decimal(10000000)| == 8;
  }

  /** Two connections never share a name exactly when the printed address leaves the buffer room for
      the longest id; every IPv4 address does. */
  lemma NamesAreDistinct(server: string, ipPort: string)
    ensures |ipPort| <= 51 <==>
              forall i: nat, j: nat :: i <= INT_MAX && j <= INT_MAX && i != j ==>
                Name(server, ipPort, i) != Name(server, ipPort, j)
  {
    if |ipPort| <= 51 {
      forall i: nat, j: nat | i <= INT_MAX && j <= INT_MAX && i != j
        ensures Name(server, ipPort, i) != Name(server, ipPort, j)
      {
        DistinctIdsDistinctNames(server, ipPort, i, j);
      }
    } else {
      LongAddressesCollide(server, ipPort);
    }
  }
}
