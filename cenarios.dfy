/**
 * Worked scenarios of the ledger: what the rules give for concrete
 * sequences of registrations, on values and on the account objects.
 */
module Cenarios {
  import opened Regras
  import opened Banco

  /** A checking account with the default ceilings: deposit 1000, then
      withdraw 400 (succeeds), 600 (over the ceiling), and 100 three times;
      the first two of those succeed and the third fails on the count
      although amount and balance would allow it. */
  lemma CenarioLimites()
    ensures var v := Corrente(LimitePadrao, LimiteSaquesPadrao);
      var ops := [Operacao(Deposito(1000), "d0"), Operacao(Saque(400), "d1"),
                  Operacao(Saque(600), "d2"), Operacao(Saque(100), "d3"),
                  Operacao(Saque(100), "d4"), Operacao(Saque(100), "d5")];
      var r := Executar(v, Inicial, ops);
      && r.saldo == 400
      && NumeroSaques(r.historico) == 3
      && r.historico == [Entrada("Deposito", 1000, "d0"), Entrada("Saque", 400, "d1"),
                         Entrada("Saque", 100, "d3"), Entrada("Saque", 100, "d4")]
  {
    var v := Corrente(LimitePadrao, LimiteSaquesPadrao);
    var o0, o1, o2 := Operacao(Deposito(1000), "d0"), Operacao(Saque(400), "d1"), Operacao(Saque(600), "d2");
    var o3, o4, o5 := Operacao(Saque(100), "d3"), Operacao(Saque(100), "d4"), Operacao(Saque(100), "d5");
    var e0, e1 := Entrada("Deposito", 1000, "d0"), Entrada("Saque", 400, "d1");
    var e3, e4 := Entrada("Saque", 100, "d3"), Entrada("Saque", 100, "d4");
    var s1 := Passo(v, Inicial, o0.t, o0.data);
    assert s1 == Estado(1000, [e0]);
    NumeroSaquesAnexa([], e0);
    var s2 := Passo(v, s1, o1.t, o1.data);
    assert s2 == Estado(600, [e0, e1]) by { assert [e0] + [e1] == [e0, e1]; }
    NumeroSaquesAnexa([e0], e1);
    var s3 := Passo(v, s2, o2.t, o2.data);
    assert s3 == s2;
    var s4 := Passo(v, s3, o3.t, o3.data);
    assert s4 == Estado(500, [e0, e1, e3]) by { assert [e0, e1] + [e3] == [e0, e1, e3]; }
    NumeroSaquesAnexa([e0, e1], e3);
    var s5 := Passo(v, s4, o4.t, o4.data);
    assert s5 == Estado(400, [e0, e1, e3, e4]) by { assert [e0, e1, e3] + [e4] == [e0, e1, e3, e4]; }
    NumeroSaquesAnexa([e0, e1, e3], e4);
    var s6 := Passo(v, s5, o5.t, o5.data);
    assert s6 == s5;
    var ops := [o0, o1, o2, o3, o4, o5];
    assert Executar(v, s6, ops[6..]) == s6;
    assert Executar(v, s5, ops[5..]) == s6 by { assert ops[5..][0] == o5 && ops[5..][1..] == ops[6..]; }
    assert Executar(v, s4, ops[4..]) == s6 by { assert ops[4..][0] == o4 && ops[4..][1..] == ops[5..]; }
    assert Executar(v, s3, ops[3..]) == s6 by { assert ops[3..][0] == o3 && ops[3..][1..] == ops[4..]; }
    assert Executar(v, s2, ops[2..]) == s6 by { assert ops[2..][0] == o2 && ops[2..][1..] == ops[3..]; }
    assert Executar(v, s1, ops[1..]) == s6 by { assert ops[1..][0] == o1 && ops[1..][1..] == ops[2..]; }
    assert Executar(v, Inicial, ops) == s6 by { assert ops[0] == o0; }
  }

  /** End to end on the objects: a customer with tax id "111" opens
      checking account 1; deposit 1000, a withdrawal of 1500 fails and
      leaves balance and history as they were, a withdrawal of 500
      succeeds. A transaction on an account never added to the customer
      is carried out all the same. */
  method CenarioPontaAPonta()
  {
    var cliente := new Cliente("Ana", "01-01-1990", "111", "Rua A, 1 - Centro - Cidade/UF");
    var conta := Conta.NovaContaCorrente(cliente, 1);
    cliente.AdicionarConta(conta);
    assert cliente.contas == [conta];

    cliente.RealizarTransacao(conta, Deposito(1000), "d0");
    assert conta.saldo == 1000 && |conta.historico.transacoes| == 1;

    cliente.RealizarTransacao(conta, Saque(1500), "d1");
    assert conta.saldo == 1000 && |conta.historico.transacoes| == 1;

    cliente.RealizarTransacao(conta, Saque(500), "d2");
    assert conta.saldo == 500 && |conta.historico.transacoes| == 2;
    assert conta.historico.transacoes[1] == Entrada("Saque", 500, "d2");

    var alheia := new Conta(2, cliente);
    cliente.RealizarTransacao(alheia, Deposito(10), "d3");
    assert alheia.saldo == 10 && alheia !in cliente.contas;
    assert conta.saldo == 500;
  }
}
