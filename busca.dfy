/**
 * The two lookups of the registry: a customer by tax id (CPF) and an
 * account by number. Both answer the first match in list order, or
 * nothing.
 */
module Busca {
  import opened Banco

  datatype Option<T> = None | Some(value: T)

  /** `c` is the first customer of `cs` with tax id `cpf`: it stands at
      some index `i` and no customer before `i` has that tax id. */
  ghost predicate PrimeiroCliente(cs: seq<Cliente>, cpf: string, c: Cliente)
  {
    exists i :: 0 <= i < |cs| && cs[i] == c && c.cpf == cpf
                && forall j :: 0 <= j < i ==> cs[j].cpf != cpf
  }

  /** `c` is the first account of `cs` numbered `numero`. */
  ghost predicate PrimeiraConta(cs: seq<Conta>, numero: int, c: Conta)
  {
    exists i :: 0 <= i < |cs| && cs[i] == c && c.numero == numero
                && forall j :: 0 <= j < i ==> cs[j].numero != numero
  }

  /** The customers of `cs` whose CPF is `cpf`, in list order: every
      customer kept has the CPF, every customer with the CPF is kept, and
      the first one kept is the first match. Order and repetitions are
      those of `cs` (lemma ClientesComCpfConcatena). */
  function ClientesComCpf(cpf: string, cs: seq<Cliente>): (r: seq<Cliente>)
    ensures |r| <= |cs|
    ensures forall k :: 0 <= k < |r| ==> r[k] in cs && r[k].cpf == cpf
    ensures forall i :: 0 <= i < |cs| && cs[i].cpf == cpf ==> cs[i] in r
    ensures r == [] <==> forall i :: 0 <= i < |cs| ==> cs[i].cpf != cpf
    ensures r != [] ==> PrimeiroCliente(cs, cpf, r[0])
  {
    if cs == [] then []
    else
      var resto := ClientesComCpf(cpf, cs[1..]);
      if cs[0].cpf == cpf then
        [cs[0]] + resto
      else
        assert resto != [] ==> PrimeiroCliente(cs, cpf, resto[0]) by {
          if resto != [] {
            var i :| 0 <= i < |cs[1..]| && cs[1..][i] == resto[0] && resto[0].cpf == cpf
                     && forall j :: 0 <= j < i ==> cs[1..][j].cpf != cpf;
            assert cs[i + 1] == resto[0];
            forall j | 0 <= j < i + 1 ensures cs[j].cpf != cpf {
              if j > 0 { assert cs[j] == cs[1..][j - 1]; }
            }
          }
        }
        assert resto == [] ==> forall i :: 0 <= i < |cs| ==> cs[i].cpf != cpf by {
          if resto == [] {
            forall i | 0 <= i < |cs| ensures cs[i].cpf != cpf {
              if i > 0 { assert cs[i] == cs[1..][i - 1]; }
            }
          }
        }
        resto
  }

  /** Filtering distributes over concatenation: the customers kept from
      `a + b` are those kept from `a` followed by those kept from `b`.
      Together with the one-customer case this fixes the result, with the
      order and the repetitions of the input. */
  lemma {:induction false} ClientesComCpfConcatena(cpf: string, a: seq<Cliente>, b: seq<Cliente>)
    ensures ClientesComCpf(cpf, a + b) == ClientesComCpf(cpf, a) + ClientesComCpf(cpf, b)
  {
    if a == [] {
      assert a + b == b;
    } else {
      assert (a + b)[0] == a[0];
      assert (a + b)[1..] == a[1..] + b;
      ClientesComCpfConcatena(cpf, a[1..], b);
    }
  }

  /** One customer is kept exactly when its CPF matches. */
  lemma ClientesComCpfUnitario(cpf: string, c: Cliente)
    ensures ClientesComCpf(cpf, [c]) == if c.cpf == cpf then [c] else []
  {
    assert [c][1..] == [];
  }

  /** `filtrar_cliente`: the first customer with the given CPF, or None. */
  function FiltrarCliente(cpf: string, clientes: seq<Cliente>): (r: Option<Cliente>)
    ensures r.None? <==> forall i :: 0 <= i < |clientes| ==> clientes[i].cpf != cpf
    ensures r.Some? ==> PrimeiroCliente(clientes, cpf, r.value)
  {
    var filtrados := ClientesComCpf(cpf, clientes);
    if filtrados != [] then Some(filtrados[0]) else None
  }

  /** `buscar_conta`: scans the accounts in order and returns the first
      whose number is `numero`, or None. */
  method BuscarConta(numero: int, contas: seq<Conta>) returns (r: Option<Conta>)
    ensures r.None? <==> forall i :: 0 <= i < |contas| ==> contas[i].numero != numero
    ensures r.Some? ==> PrimeiraConta(contas, numero, r.value)
  {
    for k := 0 to |contas|
      invariant forall j :: 0 <= j < k ==> contas[j].numero != numero
    {
      if contas[k].numero == numero {
        return Some(contas[k]);
      }
    }
    return None;
  }
}
