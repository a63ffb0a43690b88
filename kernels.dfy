/**
 * The numeric collaborators the circuit classes call but do not implement:
 * Eigen matrices and state vectors, `hash_eigen`, `Gates::get_name`,
 * `States::zero`, `apply`, `applyCTRL`, `measure_seq`, `measure`, `powm` and
 * the noise model. Matrices and states are opaque; every collaborator is a
 * function handed to the model, so nothing is assumed about what it computes.
 */
module Kernels {

  /** A dense complex matrix (`cmat`). Equality stands for `internal::EqualEigen`. */
  type Matrix(==)

  /** A state vector (`ket`). */
  type State

  /** `std::size_t`, the result of `hash_eigen`. */
  type Hash = nat

  /** What the circuit builder observes of a matrix. */
  datatype MatrixOps = MatrixOps(
    rows: Matrix -> nat,     // U.rows()
    cols: Matrix -> nat,     // U.cols()
    hash: Matrix -> Hash,    // hash_eigen(U)
    name: Matrix -> string,  // Gates::get_name(U); "" for a matrix it does not know
    empty: Matrix            // a default-constructed cmat, what unordered_map::operator[] inserts on a miss
  )

  /** `internal::check_square_mat(U)` and `U.rows() == D`. */
  predicate Shaped(m: MatrixOps, U: Matrix, D: nat)
  {
    m.rows(U) == m.cols(U) && m.rows(U) == D
  }

  /** One sampled measurement branch: outcome index, its probability and the collapsed state. */
  datatype Collapse = Collapse(outcome: nat, prob: real, state: State)

  /** The state kernels the engine dispatches to. */
  datatype StateOps = StateOps(
    zero: (nat, nat) -> State,                                // States::zero(n, d)
    apply: (State, Matrix, seq<nat>, nat) -> State,           // apply(psi, U, target, d)
    applyCtrl: (State, Matrix, seq<nat>, seq<nat>, nat) -> State, // applyCTRL(psi, U, ctrl, target, d)
    measureZ: (State, seq<nat>, nat) -> Collapse,             // measure_seq(psi, target, d)
    measureV: (State, Matrix, seq<nat>, nat) -> Collapse,     // measure(psi, V, target, d), sampled branch
    powm: (Matrix, nat) -> Matrix                             // powm(U, n)
  )

  /** A noise model: its qudit dimension, and one application to a qudit position. */
  datatype NoiseOps = NoiseOps(
    d: nat,                              // noise.get_d()
    channel: (State, nat) -> (State, nat) // noise(psi, i) with noise.get_last_idx()
  )
}
