/**
 * `fmt.Sprintf(layout, a, b)` for the address layouts of the configuration: a layout with two
 * `%s` verbs, `head%smid%stail`. The configured default is `"%s:%s"`.
 */
module Layouts {

  datatype Layout = Layout(head: string, mid: string, tail: string)

  /** The configured default `"%s:%s"`. */
  const HostPort := Layout("", ":", "")

  function Sprintf(layout: Layout, a: string, b: string): string
  {
    layout.head + a + layout.mid + b + layout.tail
  }

  /** Under `"%s:%s"`, addresses of one host differ when the ports differ. */
  lemma {:induction false} HostPortDistinguishesPorts(host: string, p1: string, p2: string)
    requires p1 != p2
    ensures Sprintf(HostPort, host, p1) != Sprintf(HostPort, host, p2)
  {
    var n := |host| + 1;
    assert Sprintf(HostPort, host, p1)[n..] == p1;
    assert Sprintf(HostPort, host, p2)[n..] == p2;
  }
}
