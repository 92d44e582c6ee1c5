/**
 * Needs (flask-principal) and the acting identity.
 *
 * A Need is the pair (method, value) of flask-principal; `UserNeed`,
 * `RoleNeed`, `ActionNeed` and `SystemRoleNeed` fix the method.  The acting
 * identity replaces the Flask globals `current_user` (its login address) and
 * `g.identity` (the Needs it provides, in iteration order).
 */
module Principal {
  import opened Wrappers

  /** A flask-principal Need.  `kind` is flask-principal's `method` field
      (`method` is a Dafny keyword). */
  datatype Need = Need(kind: string, value: string)

  function UserNeed(id: string): Need { Need("id", id) }
  function RoleNeed(role: string): Need { Need("role", role) }
  function ActionNeed(action: string): Need { Need("action", action) }
  function SystemRoleNeed(role: string): Need { Need("system_role", role) }

  /** invenio-access's `any_user`; every identity provides it. */
  const AnyUserNeed: Need := SystemRoleNeed("any_user")

  /** invenio-access's `superuser_access`. */
  const SuperUserAccess: Need := ActionNeed("superuser-access")

  /** The acting user: `current_user.current_login_ip` when that attribute is
      set (as its `str()`), and the Needs `g.identity.provides` yields, in the
      order iteration yields them. */
  datatype Actor = Actor(loginIp: Option<string>, provided: seq<Need>)

  /** The Needs of a list, as a set (`set(...)`). */
  function SetOf(ns: seq<Need>): set<Need> {
    set n | n in ns
  }

  /** The identity's provided Needs as a set. */
  function ProvidedSet(actor: Actor): set<Need> {
    SetOf(actor.provided)
  }

  /**
   * The Need matching of invenio-access's `Permission`: an identity is
   * allowed when it provides one of the granting Needs, where super users
   * (pre-expanded to the `superuser_access` Need) are implicitly among the
   * granting Needs, and provides none of the denying Needs.
   */
  predicate Allows(held: set<Need>, needs: set<Need>, excludes: set<Need>) {
    held * (needs + {SuperUserAccess}) != {} && held * excludes == {}
  }

  /** A Need that both grants and denies denies: exclusion wins. */
  lemma DenyTakesPriority(held: set<Need>, needs: set<Need>, excludes: set<Need>, n: Need)
    requires n in held && n in needs && n in excludes
    ensures !Allows(held, needs, excludes)
  {
    assert n in held * excludes;
  }

  /** Allows in terms of single Needs: some provided Need grants (or the
      identity is a super user) and no provided Need denies. */
  lemma AllowsIff(held: set<Need>, needs: set<Need>, excludes: set<Need>)
    ensures Allows(held, needs, excludes) <==>
      ((exists n :: n in held && n in needs) || SuperUserAccess in held)
      && (forall n :: n in held ==> n !in excludes)
  {
    if (exists n :: n in held && n in needs) {
      var n :| n in held && n in needs;
      assert n in held * (needs + {SuperUserAccess});
    }
    if SuperUserAccess in held {
      assert SuperUserAccess in held * (needs + {SuperUserAccess});
    }
    if held * (needs + {SuperUserAccess}) != {} {
      var n :| n in held * (needs + {SuperUserAccess});
      assert n in needs || n == SuperUserAccess;
    }
    if held * excludes != {} {
      var n :| n in held * excludes;
      assert n in held && n in excludes;
    } else {
      assert forall n :: n in held ==> n !in held * excludes;
    }
  }
}
